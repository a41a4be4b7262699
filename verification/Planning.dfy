/** Planning a run: every probed file is matched against one listing, and what is new of it is recorded. */
module Planning {
  import opened LogEntry
  import opened Sources
  import opened Tables
  import opened Delivery
  import opened Coverage
  import opened Planner
  import opened Matching
  import opened Probing
  import opened Checkpoint
  import opened Import
  import opened Tidy
  import opened CaptureRun
  import F = Fragments

  /** What a run plans: the matched files, the ids that were in use, the probed paths. */
  datatype Probe = Probe(matches: seq<Match>, existing: seq<Text>, paths: map<Text, Inode>)

  predicate AllPlansOk(db: Db, plans: seq<FilePlan>) {
    forall p <- plans :: PlanOk(db, p)
  }

  predicate DistinctPlans(plans: seq<FilePlan>) {
    forall i, j :: 0 <= i < j < |plans| ==> plans[i].sourceId != plans[j].sourceId
  }

  /** No two files are given the same id. */
  predicate DistinctIds(ms: seq<Match>, existing: seq<Text>) {
    forall i, j :: 0 <= i < j < |ms| ==> PlannedId(ms[i], existing) != PlannedId(ms[j], existing)
  }

  /** One plan for each match, in order, as the rows now stand. */
  predicate Planned(db: Db, probe: Probe, plans: seq<FilePlan>) {
    && |plans| == |probe.matches|
    && AllPlansOk(db, plans) && DistinctPlans(plans)
    && forall i :: 0 <= i < |plans| ==>
         plans[i].sourceId == PlannedId(probe.matches[i], probe.existing) && plans[i].wire == probe.matches[i].wire
  }

  // ---- Progress ------------------------------------------------------------------------------------

  function OffsetOf(sources: map<Text, SourceRecord>, id: Text): nat {
    if id in sources then sources[id].progress.offset else 0
  }

  /** The ids whose rows start over because another file falls back to them. */
  function TakenIds(db: Db, ms: seq<Match>): set<Text> {
    set i | 0 <= i < |ms| && Taken(db, ms[i]) :: ms[i].baseId
  }

  /** Planning has moved no source, but for those that start over. */
  ghost predicate OnlyTakenFall(before: map<Text, SourceRecord>, after: map<Text, SourceRecord>, taken: set<Text>) {
    forall id: Text :: OffsetOf(after, id) == if id in taken then 0 else OffsetOf(before, id)
  }

  // ---- One file ------------------------------------------------------------------------------------

  /** A plan stands as long as its row and the blobs do. */
  lemma PlanStands(before: Db, after: Db, p: FilePlan)
    requires PlanOk(before, p) && before.blobs == after.blobs
    requires p.sourceId in before.sources ==>
      p.sourceId in after.sources && after.sources[p.sourceId] == before.sources[p.sourceId]
    ensures PlanOk(after, p)
  {
  }

  /** So does a match, while another row is planned. */
  lemma MatchStands(before: Db, after: Db, m: Match, existing: seq<Text>, paths: map<Text, Inode>, id: Text)
    requires MatchOk(before, m, existing, paths) && PlannedId(m, existing) != id
    requires before.blobs == after.blobs && before.capture == after.capture
    requires after.sources.Keys == before.sources.Keys + {id}
    requires forall k <- before.sources :: k != id ==> after.sources[k] == before.sources[k]
    ensures MatchOk(after, m, existing, paths)
    ensures Taken(after, m) <==> Taken(before, m)
  {
    hide SameGeneration, NextGeneration, IsPrefixComplete;
  }

  /** The store update that goes with one plan. */
  method RecordIdentity(store: CheckpointStore, m: Match, existing: seq<Text>, now: nat)
    requires Sound(store.State(), m)
    modifies store`sources
    ensures store.State() == Recorded(old(store.State()), m, existing, now)
  {
    hide RecordSource;
    var reference := m.Reference();
    var id := PlannedId(m, existing);
    if m.same {
      var r := store.sources[id];
      if r.identity == reference && !r.absent {
        return;
      }
      var aliases := if m.wire.Some? && r.identity.path != reference.path
        then Some([Alias(reference.path, reference.device, reference.inode)]) else None;
      store.RecordSource(id, reference, None, aliases, m.blob.Some?, m.blob, None, false, now);
    } else {
      var generation := 1;
      if m.record.Some? {
        var next;
        next, generation := ComputeNextGeneration(existing, m.baseId);
      }
      var attached := if m.record.None? then m.blob else None;
      store.RecordSource(id, reference, Some(FreshProvenance(reference, generation)), None, attached.Some?, attached,
                         None, true, now);
    }
  }

  /** A match in the same generation keeps its row; any other starts one, new or over an old one. */
  function BornWith(born: map<Text, nat>, n: nat, m: Match, existing: seq<Text>): map<Text, nat> {
    if m.same then born else born[PlannedId(m, existing) := n]
  }

  /** The same for matches planned one after the other over a log of `n` bodies. */
  function BornAfter(born: map<Text, nat>, n: nat, ms: seq<Match>, existing: seq<Text>): map<Text, nat> {
    if ms == [] then born else BornWith(BornAfter(born, n, ms[..|ms| - 1], existing), n, ms[|ms| - 1], existing)
  }

  lemma BornMore(born: map<Text, nat>, n: nat, ms: seq<Match>, m: Match, existing: seq<Text>)
    ensures BornAfter(born, n, ms + [m], existing) == BornWith(BornAfter(born, n, ms, existing), n, m, existing)
  {
    hide BornWith;
    assert (ms + [m])[..|ms|] == ms;
  }

  /** The ids that planning has given to these files. */
  function IdsPlanned(ms: seq<Match>, existing: seq<Text>): set<Text> {
    set i | 0 <= i < |ms| :: PlannedId(ms[i], existing)
  }

  lemma IdsPlannedMore(ms: seq<Match>, m: Match, existing: seq<Text>)
    ensures IdsPlanned(ms + [m], existing) == IdsPlanned(ms, existing) + {PlannedId(m, existing)}
  {
    hide PlannedId;
    var more := ms + [m];
    assert forall i :: 0 <= i < |ms| ==> more[i] == ms[i];
    assert more[|ms|] == m;
    forall id | id in IdsPlanned(ms, existing)
      ensures id in IdsPlanned(more, existing)
    {
      var i :| 0 <= i < |ms| && PlannedId(ms[i], existing) == id;
      assert PlannedId(more[i], existing) == id;
    }
  }

  lemma PlanTidies(born: map<Text, nat>, log: seq<Body>, db: Db, m: Match, existing: seq<Text>, paths: map<Text, Inode>,
                   now: nat)
    requires MatchOk(db, m, existing, paths) && TiesOk(db) && TidyLog(born, log, db.sources, None)
    ensures Sound(db, m)
    ensures TidyLog(BornWith(born, |log|, m, existing), log, Recorded(db, m, existing, now).sources, None)
  {
    hide TidyLog, MatchOk, NextGeneration, Recorded, TiesOk;
    RecordedRow(db, m, existing, paths, now);
    var id := PlannedId(m, existing);
    var next := Recorded(db, m, existing, now);
    if m.same {
      TidySameProgress(born, log, db.sources, next.sources, None);
    } else {
      TidyStart(born, log, db.sources, next.sources, id);
    }
  }

  lemma PlanForFields(db: Db, m: Match, existing: seq<Text>, now: nat)
    requires Sound(db, m)
    ensures var p := PlanFor(db, m, existing, now); p.sourceId == PlannedId(m, existing) && p.wire == m.wire
  {
    hide Recorded, SelectInput, PrefixCompleteForCurrent, MustVerify, VerifySize;
  }

  /** Plan one file. No other row changes, and this one falls back to nothing exactly if its id is taken. */
  method PlanFile(state: ImportState, m: Match, existing: seq<Text>, ghost paths: map<Text, Inode>,
                  ghost plans: seq<FilePlan>)
    returns (plan: FilePlan)
    requires state.Ok() && state.store.pending.None? && CaptureDone(state.store.State())
    requires MatchOk(state.store.State(), m, existing, paths) && AllPlansOk(state.store.State(), plans)
    requires forall p <- plans :: p.sourceId != PlannedId(m, existing)
    modifies state.store`sources, state.loki`born
    ensures state.Ok()
    ensures state.loki.born == BornWith(old(state.loki.born), |state.loki.log|, m, existing)
    ensures AllPlansOk(state.store.State(), plans + [plan])
    ensures plan.sourceId == PlannedId(m, existing) && plan.wire == m.wire
    ensures plan.sourceId in state.store.sources
    ensures state.store.sources == old(state.store.sources)[plan.sourceId := state.store.sources[plan.sourceId]]
    ensures OffsetOf(state.store.sources, plan.sourceId)
         == if Taken(old(state.store.State()), m) then 0 else OffsetOf(old(state.store.sources), plan.sourceId)
    ensures PlannedRow(old(state.store.State()), m, state.store.sources[plan.sourceId], plan)
  {
    hide Inv, TidyLog, PlanOk, MatchOk, NextGeneration, Recorded, PlanFor, BornWith, RowOk, TiesOk, Base;
    ghost var db := state.store.State();
    TiesOfInv(state.codec, state.loki.log, db);
    RecordedRow(db, m, existing, paths, 0);
    var id := PlannedId(m, existing);
    var now := Clock(if id in state.store.sources then state.store.sources[id].updatedNs else 0);
    RecordedRow(db, m, existing, paths, now);
    RecordedKeeps(state.codec, state.loki.log, db, m, existing, paths, now);
    PlanForOk(state.codec, state.loki.log, db, m, existing, paths, now);
    PlanForFields(db, m, existing, now);
    PlanTidies(state.loki.born, state.loki.log, db, m, existing, paths, now);
    PlannedRowIs(db, m, existing, now);
    state.loki.born := BornWith(state.loki.born, |state.loki.log|, m, existing);
    plan := PlanFor(state.store.State(), m, existing, now);
    RecordIdentity(state.store, m, existing, now);
    forall i | 0 <= i < |plans|
      ensures PlanOk(state.store.State(), plans[i])
    {
      PlanStands(db, state.store.State(), plans[i]);
    }
  }

  lemma TiesOfInv(codec: Codec, log: seq<Body>, db: Db)
    requires Inv(codec, log, db)
    ensures TiesOk(db) && codec.Lawful()
  {
    hide RowsOk, PendingOk;
  }

  /** A row as it is first written for a probed file. */
  predicate NewRow(m: Match, r: SourceRecord) {
    && m.wire.Some? && r.identity == m.wire.value && r.provenance == FreshProvenance(m.wire.value, 1)
    && r.digest.None? && r.blob == m.blob && r.progress == F.Cursor(0, 0, 0)
  }

  /**
   A file that is already recorded as probed keeps its row, and is verified by what the row says; one whose id is not
   in use gets a new row, and there is nothing to verify it by.
   */
  predicate PlannedRow(db: Db, m: Match, r: SourceRecord, p: FilePlan) {
    && (m.same && m.record.Some? && m.record.value in db.sources && m.HasReference()
        && db.sources[m.record.value].identity == m.Reference() ==>
          && var before := db.sources[m.record.value];
             && (r == before
                 || (before.absent && SameSource(before, r)
                     && r == before.(absent := false, updatedNs := r.updatedNs,
                                     inInitialManifest := r.inInitialManifest)))
             && (p.verifyDigest.Some? ==> p.verifyDigest == before.digest && p.verifySize == VerifySize(before)))
    && (!m.same && m.record.None? && m.baseId !in db.sources && m.wire.Some? ==> NewRow(m, r) && p.verifyDigest.None?)
  }

  lemma PlannedRowIs(db: Db, m: Match, existing: seq<Text>, now: nat)
    requires Sound(db, m)
    requires m.same ==> m.blob == db.sources[m.record.value].blob && db.sources[m.record.value].updatedNs <= now
    ensures PlannedRow(db, m, Recorded(db, m, existing, now).sources[PlannedId(m, existing)],
                       PlanFor(db, m, existing, now))
  {
    hide SelectInput, PrefixCompleteForCurrent, MustVerify, VerifySize, NextGeneration;
  }

  // ---- All files -----------------------------------------------------------------------------------

  /** Whether two planned files would be given the same id. */
  method Clashes(ms: seq<Match>, existing: seq<Text>) returns (clash: bool)
    ensures clash <==> !DistinctIds(ms, existing)
  {
    hide PlannedId;
    for i := 0 to |ms|
      invariant forall a, b :: 0 <= a < b < i ==> PlannedId(ms[a], existing) != PlannedId(ms[b], existing)
    {
      for j := 0 to i
        invariant forall a :: 0 <= a < j ==> PlannedId(ms[a], existing) != PlannedId(ms[i], existing)
      {
        if PlannedId(ms[j], existing) == PlannedId(ms[i], existing) {
          return true;
        }
      }
    }
    clash := false;
  }

  /** The matches still to be planned are as good as they were, and their ids are not planned yet. */
  predicate Unplanned(db: Db, ms: seq<Match>, existing: seq<Text>, paths: map<Text, Inode>, n: nat) {
    n <= |ms| && forall i :: n <= i < |ms| ==> MatchOk(db, ms[i], existing, paths)
  }

  /** Only planned rows have changed, and none has gone. */
  ghost predicate OnlyPlanned(before: map<Text, SourceRecord>, after: map<Text, SourceRecord>, plans: seq<FilePlan>) {
    && (forall id <- before :: id in after)
    && forall id <- after :: (id in before && after[id] == before[id]) || exists p <- plans :: p.sourceId == id
  }

  /** Each row as its plan left it. */
  ghost predicate PlannedRows(start: Db, now: Db, ms: seq<Match>, plans: seq<FilePlan>) {
    |plans| == |ms| && forall i :: 0 <= i < |plans| ==>
      plans[i].sourceId in now.sources && PlannedRow(start, ms[i], now.sources[plans[i].sourceId], plans[i])
  }

  /** So far these matches have been planned, and nothing else has happened to the rows. */
  ghost predicate Sofar(start: Db, now: Db, probe: Probe, plans: seq<FilePlan>) {
    && Planned(now, probe, plans)
    && now == start.(sources := now.sources)
    && OnlyTakenFall(start.sources, now.sources, TakenIds(start, probe.matches))
    && OnlyPlanned(start.sources, now.sources, plans)
    && PlannedRows(start, now, probe.matches, plans)
  }

  lemma NothingPlanned(db: Db, existing: seq<Text>, paths: map<Text, Inode>)
    ensures Sofar(db, db, Probe([], existing, paths), [])
  {
  }

  /** The rows before and after planning one file. */
  ghost predicate OneMore(before: Db, after: Db, m: Match, existing: seq<Text>, plan: FilePlan) {
    && plan.sourceId == PlannedId(m, existing) && plan.wire == m.wire && plan.sourceId in after.sources
    && after == before.(sources := before.sources[plan.sourceId := after.sources[plan.sourceId]])
    && OffsetOf(after.sources, plan.sourceId)
         == (if Taken(before, m) then 0 else OffsetOf(before.sources, plan.sourceId))
    && PlannedRow(before, m, after.sources[plan.sourceId], plan)
  }

  /** Planning one more file, under an id no plan has, keeps the account. */
  lemma SofarStep(start: Db, before: Db, after: Db, probe: Probe, plans: seq<FilePlan>, m: Match, plan: FilePlan)
    requires Sofar(start, before, probe, plans) && OneMore(before, after, m, probe.existing, plan)
    requires AllPlansOk(after, plans + [plan]) && (m.same ==> m.record == Some(plan.sourceId))
    requires !m.same && m.record.None? ==> plan.sourceId == m.baseId
    requires forall i :: 0 <= i < |plans| ==> plans[i].sourceId != plan.sourceId
    ensures Sofar(start, after, probe.(matches := probe.matches + [m]), plans + [plan])
  {
    hide PlanOk, PlannedId, PlannedRow, OnlyPlanned, PlannedRows, OnlyTakenFall, TakenIds, Taken;
    var more := probe.(matches := probe.matches + [m]);
    assert Planned(after, more, plans + [plan]);
    OnlyPlannedStep(start, before, after, plans, plan);
    StillStart(start, before, plans, plan.sourceId);
    TakenStep(start, before, after, probe, plans, m, plan);
    PlannedRowsStep(start, before, after, probe.matches, plans, m, plan);
  }

  lemma OnlyPlannedStep(start: Db, before: Db, after: Db, plans: seq<FilePlan>, plan: FilePlan)
    requires OnlyPlanned(start.sources, before.sources, plans) && plan.sourceId in after.sources
    requires after.sources == before.sources[plan.sourceId := after.sources[plan.sourceId]]
    ensures OnlyPlanned(start.sources, after.sources, plans + [plan])
  {
    var all := plans + [plan];
    assert all[|plans|] == plan && forall p <- plans :: p in all;
  }

  /** A row no plan has is as it was. */
  lemma StillStart(start: Db, now: Db, plans: seq<FilePlan>, id: Text)
    requires OnlyPlanned(start.sources, now.sources, plans) && forall i :: 0 <= i < |plans| ==> plans[i].sourceId != id
    ensures id in start.sources <==> id in now.sources
    ensures id in start.sources ==> now.sources[id] == start.sources[id]
  {
  }

  lemma TakenStep(start: Db, before: Db, after: Db, probe: Probe, plans: seq<FilePlan>, m: Match, plan: FilePlan)
    requires Planned(before, probe, plans) && OneMore(before, after, m, probe.existing, plan)
    requires OnlyTakenFall(start.sources, before.sources, TakenIds(start, probe.matches))
    requires !m.same && m.record.None? ==> plan.sourceId == m.baseId
    requires plan.sourceId in start.sources <==> plan.sourceId in before.sources
    requires forall i :: 0 <= i < |plans| ==> plans[i].sourceId != plan.sourceId
    ensures OnlyTakenFall(start.sources, after.sources, TakenIds(start, probe.matches + [m]))
  {
    hide PlanOk, PlannedId, PlannedRow, TakenIds;
    assert Taken(before, m) <==> Taken(start, m);
    TakenMore(start, probe.matches, m);
    NotTakenYet(start, before, probe, plans, plan.sourceId);
  }

  lemma PlannedRowsStep(start: Db, before: Db, after: Db, ms: seq<Match>, plans: seq<FilePlan>, m: Match,
                        plan: FilePlan)
    requires PlannedRows(start, before, ms, plans) && plan.sourceId in after.sources
    requires after.sources == before.sources[plan.sourceId := after.sources[plan.sourceId]]
    requires PlannedRow(before, m, after.sources[plan.sourceId], plan) && (m.same ==> m.record == Some(plan.sourceId))
    requires !m.same && m.record.None? ==> plan.sourceId == m.baseId
    requires plan.sourceId in start.sources <==> plan.sourceId in before.sources
    requires plan.sourceId in start.sources ==> before.sources[plan.sourceId] == start.sources[plan.sourceId]
    requires forall i :: 0 <= i < |plans| ==> plans[i].sourceId != plan.sourceId
    ensures PlannedRows(start, after, ms + [m], plans + [plan])
  {
    hide PlannedRow;
    SameStart(start, before, m, after.sources[plan.sourceId], plan);
    forall i | 0 <= i < |plans|
      ensures PlannedRow(start, (ms + [m])[i], after.sources[plans[i].sourceId], plans[i])
    {
      assert PlannedRow(start, ms[i], before.sources[plans[i].sourceId], plans[i]);
    }
  }

  lemma SameStart(start: Db, before: Db, m: Match, r: SourceRecord, plan: FilePlan)
    requires PlannedRow(before, m, r, plan)
    requires m.same && m.record.Some? && m.record.value in start.sources ==>
      m.record.value in before.sources && before.sources[m.record.value] == start.sources[m.record.value]
    requires !m.same && m.record.None? && m.baseId in before.sources ==> m.baseId in start.sources
    ensures PlannedRow(start, m, r, plan)
  {
    hide VerifySize, SameSource, NewRow;
  }

  lemma TakenMore(db: Db, ms: seq<Match>, m: Match)
    ensures TakenIds(db, ms + [m]) == TakenIds(db, ms) + (if Taken(db, m) then {m.baseId} else {})
  {
    var more := ms + [m];
    assert forall i :: 0 <= i < |ms| ==> more[i] == ms[i];
    assert more[|ms|] == m;
    forall id | id in TakenIds(db, ms)
      ensures id in TakenIds(db, more)
    {
      var i :| 0 <= i < |ms| && Taken(db, ms[i]) && ms[i].baseId == id;
      assert Taken(db, more[i]);
    }
  }

  /** An id no plan has was not taken by any. */
  lemma NotTakenYet(start: Db, now: Db, probe: Probe, plans: seq<FilePlan>, id: Text)
    requires Planned(now, probe, plans) && forall i :: 0 <= i < |plans| ==> plans[i].sourceId != id
    ensures id !in TakenIds(start, probe.matches)
  {
    hide PlanOk, NextGeneration;
  }

  /** The matches after the `n`-th still stand when another one was planned. */
  lemma StillUnplanned(before: Db, after: Db, ms: seq<Match>, existing: seq<Text>, paths: map<Text, Inode>, n: nat,
                       plan: FilePlan)
    requires n < |ms| && Unplanned(before, ms, existing, paths, n) && DistinctIds(ms, existing)
    requires OneMore(before, after, ms[n], existing, plan)
    ensures Unplanned(after, ms, existing, paths, n + 1)
  {
    hide MatchOk, PlannedId;
    forall i | n < i < |ms|
      ensures MatchOk(after, ms[i], existing, paths)
    {
      MatchStands(before, after, ms[i], existing, paths, plan.sourceId);
    }
  }

  lemma MatchShape(db: Db, m: Match, existing: seq<Text>, paths: map<Text, Inode>)
    requires MatchOk(db, m, existing, paths)
    ensures m.same ==> m.record == Some(PlannedId(m, existing))
    ensures !m.same && m.record.None? ==> PlannedId(m, existing) == m.baseId
  {
    hide SameGeneration, NextGeneration;
  }

  /** Plan the probed files in order. */
  method PlanFiles(state: ImportState, ms: seq<Match>, existing: seq<Text>, paths: map<Text, Inode>)
    returns (alive: bool, plans: seq<FilePlan>, ghost done: seq<Match>)
    requires state.Ok() && state.store.pending.None? && CaptureDone(state.store.State())
    requires Unplanned(state.store.State(), ms, existing, paths, 0) && DistinctIds(ms, existing)
    modifies state.store`sources, state.loki`born
    ensures state.Ok()
    ensures done <= ms && (alive ==> done == ms)
    ensures state.loki.born == BornAfter(old(state.loki.born), |state.loki.log|, done, existing)
    ensures state.store.sources.Keys == old(state.store.sources).Keys + IdsPlanned(done, existing)
    ensures alive ==> Sofar(old(state.store.State()), state.store.State(), Probe(ms, existing, paths), plans)
    ensures state.calm ==> alive
  {
    hide Inv, TidyLog, MatchOk, PlannedId, PlanOk, Sofar, Unplanned, AllPlansOk, PlannedRow, DistinctIds,
         NextGeneration, BornWith, BornAfter, IdsPlanned;
    plans, done := [], [];
    NobodyBorn(state.loki.born, |state.loki.log|, existing);
    NothingPlanned(state.store.State(), existing, paths);
    var n := 0;
    while n < |ms|
      invariant n <= |ms| && state.Ok() && done == ms[..n]
      invariant state.loki.born == BornAfter(old(state.loki.born), |state.loki.log|, done, existing)
      invariant state.store.sources.Keys == old(state.store.sources).Keys + IdsPlanned(done, existing)
      invariant state.store.State() == old(state.store.State()).(sources := state.store.sources)
      invariant Unplanned(state.store.State(), ms, existing, paths, n)
      invariant Sofar(old(state.store.State()), state.store.State(), Probe(ms[..n], existing, paths), plans)
    {
      ghost var before := state.store.State();
      var m := ms[n];
      ReadyToPlan(before, ms, existing, paths, n, old(state.store.State()), plans);
      var plan := PlanFile(state, m, existing, paths, plans);
      StillUnplanned(before, state.store.State(), ms, existing, paths, n, plan);
      SofarMore(old(state.store.State()), before, state.store.State(), ms, existing, paths, n, plans, plan);
      plans := plans + [plan];
      BornMore(old(state.loki.born), |state.loki.log|, done, m, existing);
      IdsPlannedMore(done, m, existing);
      done := done + [m];
      n := n + 1;
      assert ms[..n] == done;
      var died := state.Dies();
      if died {
        return false, plans, done;
      }
    }
    assert ms[..n] == ms;
    alive := true;
  }

  lemma NobodyBorn(born: map<Text, nat>, n: nat, existing: seq<Text>)
    ensures BornAfter(born, n, [], existing) == born && IdsPlanned([], existing) == {}
  {
  }

  lemma ReadyToPlan(db: Db, ms: seq<Match>, existing: seq<Text>, paths: map<Text, Inode>, n: nat, start: Db,
                    plans: seq<FilePlan>)
    requires n < |ms| && Unplanned(db, ms, existing, paths, n) && DistinctIds(ms, existing)
    requires Sofar(start, db, Probe(ms[..n], existing, paths), plans)
    ensures MatchOk(db, ms[n], existing, paths) && AllPlansOk(db, plans)
    ensures forall p <- plans :: p.sourceId != PlannedId(ms[n], existing)
  {
    hide MatchOk, PlannedId, PlanOk, PlannedRow;
    forall p <- plans
      ensures p.sourceId != PlannedId(ms[n], existing)
    {
      var i :| 0 <= i < |plans| && plans[i] == p;
      assert ms[..n][i] == ms[i];
    }
  }

  lemma SofarMore(start: Db, before: Db, after: Db, ms: seq<Match>, existing: seq<Text>, paths: map<Text, Inode>,
                  n: nat, plans: seq<FilePlan>, plan: FilePlan)
    requires n < |ms| && Unplanned(before, ms, existing, paths, n) && DistinctIds(ms, existing)
    requires Sofar(start, before, Probe(ms[..n], existing, paths), plans)
    requires OneMore(before, after, ms[n], existing, plan) && AllPlansOk(after, plans + [plan])
    ensures Sofar(start, after, Probe(ms[..n + 1], existing, paths), plans + [plan])
  {
    hide MatchOk, PlannedId, PlanOk, PlannedRow, Sofar;
    ReadyToPlan(before, ms, existing, paths, n, start, plans);
    MatchShape(before, ms[n], existing, paths);
    assert ms[..n + 1] == ms[..n] + [ms[n]];
    SofarStep(start, before, after, Probe(ms[..n], existing, paths), plans, ms[n], plan);
  }

  /** What is left of the manifest: neither met in the probe nor complete. */
  ghost predicate LeftoverOf(start: Db, m: Match) {
    && start.capture.Some?
    && exists key <- start.capture.value.expected ::
         key in start.capture.value.manifest && LeftoverToPlan(start, key) && m == Leftover(start, key)
  }

  /** A frozen file has a plan, or is complete. */
  ghost predicate Handled(start: Db, plans: seq<FilePlan>, key: BlobKey)
    requires start.capture.Some? && key in start.capture.value.expected
  {
    var id := start.capture.value.expected[key].sourceId;
    || (exists p <- plans :: p.sourceId == id)
    || (id in start.sources && IsPrefixComplete(start.sources[id]))
  }

  /** The ids the plans work on. */
  function IdsOf(plans: seq<FilePlan>): set<Text> {
    set p <- plans :: p.sourceId
  }

  lemma LeftoverFits(start: Db, db: Db, probe: Probe, plans: seq<FilePlan>, key: BlobKey)
    requires Sofar(start, db, probe, plans) && start.capture.Some? && key in start.capture.value.expected
    requires start.capture.value.expected[key].sourceId !in IdsOf(plans)
    ensures db.capture == start.capture && (LeftoverToPlan(db, key) <==> LeftoverToPlan(start, key))
    ensures key in start.capture.value.manifest ==> Leftover(db, key) == Leftover(start, key)
    ensures LeftoverToPlan(db, key) || Handled(start, plans, key)
  {
    hide Planned, PlannedRows, OnlyTakenFall;
    var id := start.capture.value.expected[key].sourceId;
    forall i | 0 <= i < |plans|
      ensures plans[i].sourceId != id
    {
      assert plans[i] in plans;
    }
    StillStart(start, db, plans, id);
  }

  lemma HandledMore(start: Db, plans: seq<FilePlan>, more: seq<FilePlan>, key: BlobKey)
    requires start.capture.Some? && key in start.capture.value.expected && Handled(start, plans, key)
    requires plans <= more
    ensures Handled(start, more, key)
  {
    assert forall p <- plans :: p in more;
  }

  lemma IdsMore(plans: seq<FilePlan>, plan: FilePlan)
    ensures IdsOf(plans + [plan]) == IdsOf(plans) + {plan.sourceId}
  {
    assert forall p <- plans :: p in plans + [plan];
    assert plan in plans + [plan];
  }

  /** Blobs of different keys are of different sources. */
  predicate KeysDiffer(c: Capture) {
    forall a, b :: a in c.expected && b in c.expected && c.expected[a].sourceId == c.expected[b].sourceId ==> a == b
  }

  /** Plan one frozen file that the probe did not meet. */
  method PlanLeftover(state: ImportState, ghost start: Db, ghost probe: Probe, plans: seq<FilePlan>, key: BlobKey,
                      existing: seq<Text>, ghost paths: map<Text, Inode>)
    returns (plan: FilePlan, ghost m: Match)
    requires state.Ok() && state.store.pending.None? && CaptureDone(state.store.State()) && SpoolOk(state.store.State())
    requires Sofar(start, state.store.State(), probe, plans) && key in state.store.capture.value.expected
    requires probe.existing == existing && probe.paths == paths
    requires state.store.capture.value.expected[key].sourceId !in IdsOf(plans)
          && LeftoverToPlan(state.store.State(), key)
    modifies state.store`sources, state.loki`born
    ensures state.Ok() && SpoolOk(state.store.State())
    ensures state.loki.born == BornWith(old(state.loki.born), |state.loki.log|, m, existing)
    ensures state.store.sources.Keys == old(state.store.sources).Keys + {PlannedId(m, existing)}
    ensures Sofar(start, state.store.State(), probe.(matches := probe.matches + [m]), plans + [plan])
    ensures plan.sourceId == state.store.capture.value.expected[key].sourceId && LeftoverOf(start, m)
  {
    hide Inv, TidyLog, MatchOk, PlannedId, PlanOk, Sofar, AllPlansOk, PlannedRow, NextGeneration, SpoolOk,
         BlobsCaptured, LeftoverToPlan, Leftover, IdsOf, ManifestOk, BornWith;
    ghost var before := state.store.State();
    SameCapture(start, before, probe, plans);
    LeftoverFits(start, before, probe, plans, key);
    SpoolIsCaptured(before);
    TiesOfInv(state.codec, state.loki.log, before);
    LeftoverIsOk(before, key, probe.existing, probe.paths);
    m := Leftover(before, key);
    FreshForAll(start, before, probe, plans, state.store.capture.value.expected[key].sourceId);
    plan := PlanFile(state, Leftover(state.store.State(), key), existing, paths, plans);
    MatchShape(before, m, probe.existing, probe.paths);
    SofarStep(start, before, state.store.State(), probe, plans, m, plan);
    SpoolStays(before, state.store.State());
    IsLeftover(start, key, m);
  }

  /** Every frozen file is handled, or is still to come and not planned among the leftovers. */
  ghost predicate LeftoversSofar(start: Db, plans0: seq<FilePlan>, plans: seq<FilePlan>, todo: set<BlobKey>) {
    && start.capture.Some? && todo <= start.capture.value.expected.Keys && plans0 <= plans
    && forall key <- start.capture.value.expected ::
         if key in todo then
           var id := start.capture.value.expected[key].sourceId;
           id in IdsOf(plans0) || id !in IdsOf(plans)
         else Handled(start, plans, key)
  }

  /** One more frozen file is handled, with or without a plan of its own. */
  lemma LeftoversStep(start: Db, plans0: seq<FilePlan>, plans: seq<FilePlan>, todo: set<BlobKey>, key: BlobKey,
                      more: seq<FilePlan>)
    requires LeftoversSofar(start, plans0, plans, todo) && key in todo && KeysDiffer(start.capture.value)
    requires var id := start.capture.value.expected[key].sourceId;
      || (more == [] && (id in IdsOf(plans0) || Handled(start, plans, key)))
      || (|more| == 1 && more[0].sourceId == id && id !in IdsOf(plans0))
    ensures LeftoversSofar(start, plans0, plans + more, todo - {key})
  {
    hide Handled;
    var all := plans + more;
    if more == [] {
      assert all == plans;
    } else {
      assert more == [more[0]];
      IdsMore(plans, more[0]);
    }
    forall k <- start.capture.value.expected | k !in todo - {key}
      ensures Handled(start, all, k)
    {
      if k != key {
        HandledMore(start, plans, all, k);
      } else if more != [] || start.capture.value.expected[key].sourceId in IdsOf(plans0) {
        assert forall p <- plans0 :: p in all;
        PlannedIsHandled(start, all, k);
      }
    }
  }

  /** Births and ids are those that planning these files from here accounts for. */
  ghost predicate Accounts(born0: map<Text, nat>, n: nat, ids: set<Text>, probe: Probe, born: map<Text, nat>,
                           sources: map<Text, SourceRecord>)
  {
    && born == BornAfter(born0, n, probe.matches, probe.existing)
    && sources.Keys == ids + IdsPlanned(probe.matches, probe.existing)
  }

  lemma AccountsMore(born0: map<Text, nat>, n: nat, ids: set<Text>, probe: Probe, before: map<Text, nat>,
                     keys: map<Text, SourceRecord>, m: Match, born: map<Text, nat>, sources: map<Text, SourceRecord>)
    requires Accounts(born0, n, ids, probe, before, keys) && born == BornWith(before, n, m, probe.existing)
    requires sources.Keys == keys.Keys + {PlannedId(m, probe.existing)}
    ensures Accounts(born0, n, ids, probe.(matches := probe.matches + [m]), born, sources)
  {
    hide BornWith, BornAfter, IdsPlanned, PlannedId;
    BornMore(born0, n, probe.matches, m, probe.existing);
    IdsPlannedMore(probe.matches, m, probe.existing);
  }

  /** The same probe with leftovers planned as well. */
  ghost predicate WithLeftovers(start: Db, probe0: Probe, probe: Probe) {
    && probe == probe0.(matches := probe.matches) && probe0.matches <= probe.matches
    && forall i :: |probe0.matches| <= i < |probe.matches| ==> LeftoverOf(start, probe.matches[i])
  }

  lemma NoLeftovers(start: Db, probe: Probe)
    ensures WithLeftovers(start, probe, probe)
  {
  }

  lemma SameProbe(start: Db, probe0: Probe, probe: Probe)
    requires WithLeftovers(start, probe0, probe)
    ensures probe.existing == probe0.existing && probe.paths == probe0.paths
  {
  }

  lemma MoreLeftovers(start: Db, probe0: Probe, probe: Probe, m: Match)
    requires WithLeftovers(start, probe0, probe) && LeftoverOf(start, m)
    ensures WithLeftovers(start, probe0, probe.(matches := probe.matches + [m]))
  {
    hide LeftoverOf;
  }

  /** Plan the frozen files that the probe did not meet, in whatever order. */
  method PlanLeftovers(state: ImportState, ghost start: Db, probe0: Probe, plans0: seq<FilePlan>,
                       ghost born: map<Text, nat>, ghost ids: set<Text>)
    returns (alive: bool, plans: seq<FilePlan>, ghost probe: Probe)
    requires state.Ok() && state.store.pending.None? && CaptureDone(state.store.State()) && SpoolOk(state.store.State())
    requires Sofar(start, state.store.State(), probe0, plans0)
    requires Accounts(born, |state.loki.log|, ids, probe0, state.loki.born, state.store.sources)
    modifies state.store`sources, state.loki`born
    ensures state.Ok() && SpoolOk(state.store.State())
    ensures WithLeftovers(start, probe0, probe)
    ensures Accounts(born, |state.loki.log|, ids, probe, state.loki.born, state.store.sources)
    ensures alive ==>
      && Sofar(start, state.store.State(), probe, plans)
      && start.capture.Some? && forall key <- start.capture.value.expected :: Handled(start, plans, key)
    ensures state.calm ==> alive
  {
    hide Inv, TidyLog, Sofar, SpoolOk, LeftoverToPlan, Leftover, IdsOf, Handled, KeysDiffer, LeftoverOf, Accounts,
         WithLeftovers, PlannedId;
    NoLeftovers(start, probe0);
    plans, probe := plans0, probe0;
    var c := state.store.capture.value;
    SameCapture(start, state.store.State(), probe0, plans0);
    SpoolParts(state.store.State());
    var todo := c.expected.Keys;
    assert LeftoversSofar(start, plans0, plans, todo);
    hide LeftoversSofar;
    while todo != {}
      invariant todo <= c.expected.Keys && state.Ok() && SpoolOk(state.store.State())
      invariant state.store.State() == old(state.store.State()).(sources := state.store.sources)
      invariant Sofar(start, state.store.State(), probe, plans) && LeftoversSofar(start, plans0, plans, todo)
      invariant WithLeftovers(start, probe0, probe)
      invariant Accounts(born, |state.loki.log|, ids, probe, state.loki.born, state.store.sources)
      decreases |todo|
    {
      var key :| key in todo;
      if c.expected[key].sourceId in IdsOf(plans0) {
        LeftoversStep(start, plans0, plans, todo, key, []);
        assert plans + [] == plans;
      } else {
        StillToCome(start, plans0, plans, todo, key);
        LeftoverFits(start, state.store.State(), probe, plans, key);
        if LeftoverToPlan(state.store.State(), key) {
          var plan;
          ghost var m;
          ghost var before, keys := state.loki.born, state.store.sources;
          SameProbe(start, probe0, probe);
          plan, m := PlanLeftover(state, start, probe, plans, key, probe0.existing, probe0.paths);
          LeftoversStep(start, plans0, plans, todo, key, [plan]);
          AccountsMore(born, |state.loki.log|, ids, probe, before, keys, m, state.loki.born, state.store.sources);
          MoreLeftovers(start, probe0, probe, m);
          plans := plans + [plan];
          probe := probe.(matches := probe.matches + [m]);
          var died := state.Dies();
          if died {
            return false, plans, probe;
          }
        } else {
          LeftoversStep(start, plans0, plans, todo, key, []);
          assert plans + [] == plans;
        }
      }
      todo := todo - {key};
    }
    assert forall key <- start.capture.value.expected :: Handled(start, plans, key) by {
      AllHandled(start, plans0, plans);
    }
    alive := true;
  }

  lemma StillToCome(start: Db, plans0: seq<FilePlan>, plans: seq<FilePlan>, todo: set<BlobKey>, key: BlobKey)
    requires LeftoversSofar(start, plans0, plans, todo) && key in todo
    requires start.capture.value.expected[key].sourceId !in IdsOf(plans0)
    ensures start.capture.value.expected[key].sourceId !in IdsOf(plans)
  {
    hide IdsOf;
  }

  lemma AllHandled(start: Db, plans0: seq<FilePlan>, plans: seq<FilePlan>)
    requires LeftoversSofar(start, plans0, plans, {})
    ensures start.capture.Some? && forall key <- start.capture.value.expected :: Handled(start, plans, key)
  {
    hide Handled, IdsOf;
  }

  lemma SameCapture(start: Db, db: Db, probe: Probe, plans: seq<FilePlan>)
    requires Sofar(start, db, probe, plans)
    ensures db.capture == start.capture && db.blobs == start.blobs && db.pending == start.pending
         && db.intents == start.intents
  {
    hide Planned, OnlyPlanned, PlannedRows, OnlyTakenFall;
  }

  lemma SpoolParts(db: Db)
    requires SpoolOk(db) && CaptureDone(db)
    ensures KeysDiffer(db.capture.value) && forall key <- db.capture.value.expected :: key in db.capture.value.manifest
  {
    hide BaseIdOf, WireOk;
  }

  lemma SpoolStays(before: Db, after: Db)
    requires SpoolOk(before) && before.blobs == after.blobs && before.capture == after.capture
    ensures SpoolOk(after)
  {
    hide ManifestOk;
  }

  lemma PlannedIsHandled(start: Db, plans: seq<FilePlan>, key: BlobKey)
    requires start.capture.Some? && key in start.capture.value.expected
    requires start.capture.value.expected[key].sourceId in IdsOf(plans)
    ensures Handled(start, plans, key)
  {
  }

  lemma IsLeftover(start: Db, key: BlobKey, m: Match)
    requires start.capture.Some? && key in start.capture.value.expected && key in start.capture.value.manifest
    requires LeftoverToPlan(start, key) && m == Leftover(start, key)
    ensures LeftoverOf(start, m)
  {
  }

  lemma FreshForAll(start: Db, db: Db, probe: Probe, plans: seq<FilePlan>, id: Text)
    requires Sofar(start, db, probe, plans) && id !in IdsOf(plans)
    ensures AllPlansOk(db, plans) && forall p <- plans :: p.sourceId != id
  {
    hide OnlyPlanned, PlannedRows, OnlyTakenFall, PlanOk;
  }

  /** What planning has done: a plan for every file that is to be planned, first the probed ones, then what is left. */
  ghost predicate AllPlanned(start: Db, now: Db, wires: seq<Wire>, l: Listing, probe: Probe, plans: seq<FilePlan>) {
    && start.capture.Some? && ListingOk(start, l)
    && Sofar(start, now, probe, plans)
    && probe.existing == l.Existing() && probe.paths == PathsOf(wires)
    && var ms := Matches(start.capture.value, l, PathsOf(wires), wires);
       && ms <= probe.matches && DistinctIds(ms, l.Existing())
       && (forall i :: |ms| <= i < |probe.matches| ==> LeftoverOf(start, probe.matches[i]))
       && forall key <- start.capture.value.expected :: Handled(start, plans, key)
  }

  /**
   A file that a run planned: a probed one, or one left of the manifest. It starts a row over an old one exactly if it
   takes the id of that row.
   */
  ghost predicate PlannedFrom(start: Db, l: Listing, wires: seq<Wire>, m: Match) {
    && start.capture.Some?
    && (m in Matches(start.capture.value, l, PathsOf(wires), wires) || LeftoverOf(start, m))
    && (!m.same ==> (PlannedId(m, l.Existing()) in start.sources <==> Taken(start, m)))
  }

  lemma AllPlannedFrom(codec: Codec, log: seq<Body>, start: Db, l: Listing, wires: seq<Wire>, ms: seq<Match>)
    requires Inv(codec, log, start) && SpoolOk(start) && CaptureDone(start) && ListingOk(start, l) && WiresOk(wires)
    requires forall m <- ms :: m in Matches(start.capture.value, l, PathsOf(wires), wires) || LeftoverOf(start, m)
    ensures forall m <- ms :: PlannedFrom(start, l, wires, m)
  {
    hide Inv, SpoolOk, ListingOk, WiresOk, Matches, PathsOf, LeftoverOf, Unplanned, MatchOk, Taken, PlannedId;
    var matched := Matches(start.capture.value, l, PathsOf(wires), wires);
    AllMatchesOk(codec, log, start, l, wires);
    forall m <- ms
      ensures PlannedFrom(start, l, wires, m)
    {
      if m in matched {
        var i :| 0 <= i < |matched| && matched[i] == m;
        OneUnplanned(start, matched, l.Existing(), PathsOf(wires), i);
        TiesOfInv(codec, log, start);
        RecordedRow(start, m, l.Existing(), PathsOf(wires), 0);
      } else {
        LeftoverTakesNothing(start, m, l.Existing());
      }
    }
  }

  lemma OneUnplanned(db: Db, ms: seq<Match>, existing: seq<Text>, paths: map<Text, Inode>, i: nat)
    requires Unplanned(db, ms, existing, paths, 0) && i < |ms|
    ensures MatchOk(db, ms[i], existing, paths)
  {
    hide MatchOk;
  }

  lemma LeftoverTakesNothing(start: Db, m: Match, existing: seq<Text>)
    requires LeftoverOf(start, m)
    ensures !m.same ==> PlannedId(m, existing) !in start.sources && !Taken(start, m)
  {
    hide NextGeneration;
  }

  /**
   Plan every probed file and what is left of the manifest, recording new and changed identities as it goes. A run
   whose files would share an id is followed no further: it is reported as a clash and nothing is recorded.
   */
  method PlanSources(state: ImportState, wires: seq<Wire>)
    returns (alive: bool, clash: bool, plans: seq<FilePlan>, ghost probe: Probe, ghost l: Listing,
             ghost done: seq<Match>)
    requires state.Ok() && state.store.pending.None? && CaptureDone(state.store.State()) && SpoolOk(state.store.State())
    requires WiresOk(wires)
    modifies state.store`sources, state.loki`born
    ensures state.Ok() && SpoolOk(state.store.State())
    ensures state.loki.born == BornAfter(old(state.loki.born), |state.loki.log|, done, l.Existing())
    ensures state.store.sources.Keys == old(state.store.sources).Keys + IdsPlanned(done, l.Existing())
    ensures forall m <- done :: PlannedFrom(old(state.store.State()), l, wires, m)
    ensures ListingOk(old(state.store.State()), l)
    ensures clash <==>
      !DistinctIds(Matches(old(state.store.capture).value, l, PathsOf(wires), wires), l.Existing())
    ensures clash ==> alive && state.store.sources == old(state.store.sources)
    ensures alive && !clash ==> AllPlanned(old(state.store.State()), state.store.State(), wires, l, probe, plans)
    ensures state.calm ==> alive
  {
    hide Inv, TidyLog, SpoolOk, ListingOk, Matches, PathsOf, DistinctIds, Sofar, Unplanned, LeftoverOf, Handled,
         BornAfter, IdsPlanned, PlannedFrom, WiresOk;
    ghost var start := state.store.State();
    var listing := ListStore(state.store.State());
    var ms, paths := MatchFiles(state.store.capture.value, listing, wires);
    l, probe := listing, Probe(ms, listing.Existing(), paths);
    clash := Clashes(ms, listing.Existing());
    NobodyBorn(state.loki.born, |state.loki.log|, listing.Existing());
    if clash {
      return true, true, [], probe, l, [];
    }
    AllMatchesOk(state.codec, state.loki.log, start, listing, wires);
    alive, plans, done := PlanFiles(state, ms, listing.Existing(), paths);
    SpoolStays(start, state.store.State());
    AllPlannedFrom(state.codec, state.loki.log, start, listing, wires, done);
    if !alive {
      return;
    }
    alive, plans, probe := PlanLeftovers(state, start, Probe(ms, listing.Existing(), paths), plans,
                                         old(state.loki.born), start.sources.Keys);
    done := probe.matches;
    AllPlannedFrom(state.codec, state.loki.log, start, listing, wires, done);
  }

  lemma AllMatchesOk(codec: Codec, log: seq<Body>, db: Db, l: Listing, wires: seq<Wire>)
    requires Inv(codec, log, db) && SpoolOk(db) && CaptureDone(db) && ListingOk(db, l) && WiresOk(wires)
    ensures Unplanned(db, Matches(db.capture.value, l, PathsOf(wires), wires), l.Existing(), PathsOf(wires), 0)
  {
    hide Inv, SpoolOk, ListingOk, BlobsCaptured, MatchOf, ToPlan, MatchOk, WireOk;
    var ms := Matches(db.capture.value, l, PathsOf(wires), wires);
    SpoolIsCaptured(db);
    TiesOfInv(codec, log, db);
    forall i | 0 <= i < |ms|
      ensures MatchOk(db, ms[i], l.Existing(), PathsOf(wires))
    {
      assert ms[i] in ms;
      MatchIsOk(db, l, PathsOf(wires), ms[i].wire.value);
    }
  }
}
