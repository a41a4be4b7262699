/**
 When content is delivered a second time, over a whole campaign that began with an empty store and an empty log: exactly
 when a row was started while the log had entries of its id, and that happens only over a taken id or after a purge.
 */
module Repeats {
  import opened Utf8
  import opened LogEntry
  import opened Sources
  import opened Tables
  import opened Delivery
  import opened Coverage
  import opened CaptureRun
  import opened Import
  import opened Planner
  import opened Planning
  import opened Run
  import opened Tidy
  import opened Campaign
  import Retention
  import opened Probing

  /** Nothing has happened yet. */
  predicate Blank(m: Moment) {
    m.db.sources == map[] && m.log == [] && m.born == map[]
  }

  /** The log holds entries of the id. */
  predicate Used(log: seq<Body>, id: Text) {
    id in IdsIn(log)
  }

  /** A run planned a file under this id that continues no row, and so started the row. */
  ghost predicate StartedAt(codec: Codec, events: seq<Event>, moments: seq<Moment>, i: nat, w: Work, m: Match,
                            id: Text) {
    && i + 1 < |moments| && i < |events| && events[i].Maintain?
    && Worked(codec, moments[i], events[i].day, moments[i + 1], w)
    && m in w.done && !m.same && PlannedId(m, w.l.Existing()) == id
  }

  /** An event after which a row is gone. */
  predicate WentAt(events: seq<Event>, moments: seq<Moment>, k: nat, id: Text) {
    && k + 1 < |moments| && k < |events|
    && id in moments[k].db.sources && id !in moments[k + 1].db.sources
  }

  /** Births come from the files that continue no row, or were there before. */
  lemma {:induction false} BornIs(born: map<Text, nat>, n: nat, ms: seq<Match>, existing: seq<Text>, id: Text)
    requires id in BornAfter(born, n, ms, existing)
    ensures
      || (BornAfter(born, n, ms, existing)[id] == n && exists m <- ms :: !m.same && PlannedId(m, existing) == id)
      || (id in born && BornAfter(born, n, ms, existing)[id] == born[id])
  {
    hide PlannedId;
    if ms != [] {
      var shorter, last := ms[..|ms| - 1], ms[|ms| - 1];
      assert last in ms && forall m <- shorter :: m in ms;
      if last.same || PlannedId(last, existing) != id {
        BornIs(born, n, shorter, existing, id);
      }
    }
  }

  lemma HistoryPrefix(codec: Codec, events: seq<Event>, moments: seq<Moment>)
    requires History(codec, events, moments) && |moments| > 1
    ensures |moments| <= |events| + 1
    ensures History(codec, events, moments[..|moments| - 1])
    ensures Follows(codec, moments[|moments| - 2], events[|moments| - 2], moments[|moments| - 1])
  {
    hide InOrder, Follows;
    var shorter := moments[..|moments| - 1];
    forall i | 0 <= i < |shorter| - 1
      ensures Follows(codec, shorter[i], events[i], shorter[i + 1])
    {
      assert Follows(codec, moments[i], events[i], moments[i + 1]);
    }
  }

  /** Whoever has a birth was started by some run, over the log of that length. */
  lemma {:induction false} WhoIsBorn(codec: Codec, events: seq<Event>, moments: seq<Moment>, id: Text)
    requires History(codec, events, moments) && moments != [] && Blank(moments[0])
    requires id in moments[|moments| - 1].born
    ensures exists i: nat, w: Work, m: Match ::
      StartedAt(codec, events, moments, i, w, m, id) && |w.log| == moments[|moments| - 1].born[id]
    decreases |moments|
  {
    hide History, InOrder, Follows, BornAfter, PlannedId, Worked;
    var n := |moments| - 1;
    if n > 0 {
      HistoryPrefix(codec, events, moments);
      BornStep(codec, events, moments, n - 1, id);
      if id in moments[n - 1].born && moments[n].born[id] == moments[n - 1].born[id] {
        var shorter := moments[..n];
        WhoIsBorn(codec, events, shorter, id);
        var i: nat, w: Work, m: Match :| StartedAt(codec, events, shorter, i, w, m, id)
            && |w.log| == shorter[n - 1].born[id];
        assert StartedAt(codec, events, moments, i, w, m, id);
      }
    }
  }

  /** The last event started the row, or left its birth as it was. */
  lemma BornStep(codec: Codec, events: seq<Event>, moments: seq<Moment>, i: nat, id: Text)
    requires i + 1 < |moments| <= |events| + 1 && id in moments[i + 1].born
    requires Follows(codec, moments[i], events[i], moments[i + 1])
    ensures
      || (exists w: Work, m: Match ::
            StartedAt(codec, events, moments, i, w, m, id) && |w.log| == moments[i + 1].born[id])
      || (id in moments[i].born && moments[i + 1].born[id] == moments[i].born[id])
  {
    hide PlannedId, BornAfter, ListingOk, Inv, TidyLog, PlannedFrom, SameRows, IdsPlanned;
    var a, e, b := moments[i], events[i], moments[i + 1];
    if e.Maintain? {
      var w: Work :| Worked(codec, a, e.day, b, w);
      BornIs(a.born, |w.log|, w.done, w.l.Existing(), id);
      if exists m <- w.done :: !m.same && PlannedId(m, w.l.Existing()) == id && b.born[id] == |w.log| {
        var m :| m in w.done && !m.same && PlannedId(m, w.l.Existing()) == id;
        assert StartedAt(codec, events, moments, i, w, m, id);
      }
    }
  }

  /** The log only grows. */
  lemma {:induction false} LogGrows(codec: Codec, events: seq<Event>, moments: seq<Moment>, i: nat)
    requires History(codec, events, moments) && i < |moments|
    ensures moments[i].log <= moments[|moments| - 1].log
    decreases |moments|
  {
    hide History, InOrder, RunPlanned;
    var n := |moments| - 1;
    if i < n {
      HistoryPrefix(codec, events, moments);
      LogGrows(codec, events, moments[..n], i);
    }
  }

  /** A row is gone only because it was purged. */
  lemma {:induction false} GoneIsPurged(codec: Codec, events: seq<Event>, moments: seq<Moment>, j: nat, id: Text)
    requires History(codec, events, moments) && j < |moments|
    requires id in moments[j].db.sources && id !in moments[|moments| - 1].db.sources
    ensures exists k: nat :: j <= k && WentAt(events, moments, k, id) && events[k].PurgeExpired?
    decreases |moments|
  {
    hide History, InOrder, Purge, ListingOk, Inv, TidyLog, PlannedFrom, BornAfter;
    var n := |moments| - 1;
    HistoryPrefix(codec, events, moments);
    if id in moments[n - 1].db.sources {
      assert WentAt(events, moments, n - 1, id);
    } else {
      var shorter := moments[..n];
      GoneIsPurged(codec, events, shorter, j, id);
      var k: nat :| j <= k && WentAt(events, shorter, k, id) && events[k].PurgeExpired?;
      assert WentAt(events, moments, k, id);
    }
  }

  lemma EntryIsBorn(born: map<Text, nat>, log: seq<Body>, sources: map<Text, SourceRecord>, id: Text)
    requires BornOk(born, log, sources) && Used(log, id)
    ensures id in born
  {
  }

  /**
   A row was started again: a run started it while the log had entries of its id. Either its id was taken from an old
   row, or an old row of that id was purged before.
   */
  ghost predicate StartedAgain(codec: Codec, events: seq<Event>, moments: seq<Moment>, i: nat, w: Work, m: Match,
                               id: Text) {
    && StartedAt(codec, events, moments, i, w, m, id) && Used(w.log, id)
    && (Taken(w.start, m) || exists k: nat :: k < i && WentAt(events, moments, k, id) && events[k].PurgeExpired?)
  }

  /**
   Whoever is started while the log has entries of the id takes the id of a row, or comes after one that was purged.
   */
  lemma WhyUsed(codec: Codec, events: seq<Event>, moments: seq<Moment>, i: nat, w: Work, m: Match, id: Text)
    requires History(codec, events, moments) && moments != [] && Blank(moments[0])
    requires StartedAt(codec, events, moments, i, w, m, id) && Used(w.log, id)
    ensures StartedAgain(codec, events, moments, i, w, m, id)
  {
    hide History, Worked, PlannedId, Taken, Used;
    WhoStarts(codec, events, moments, i, w, m, id);
    if !Taken(w.start, m) {
      HadRow(codec, events, moments, i, id);
    }
  }

  /** An id that is not taken has no row then; one with entries had a row before. */
  lemma WhoStarts(codec: Codec, events: seq<Event>, moments: seq<Moment>, i: nat, w: Work, m: Match, id: Text)
    requires StartedAt(codec, events, moments, i, w, m, id) && Used(w.log, id)
    ensures id in moments[i].born && (!Taken(w.start, m) ==> id !in moments[i].db.sources)
  {
    hide PlannedId, ListingOk, Inv, BornAfter, AllAccounted, OnceEach, PendingLined, Taken, Used, BornOk;
    EntryIsBorn(moments[i].born, w.log, w.start.sources, id);
  }

  /** The row of an id that has a birth and no row was purged. */
  lemma HadRow(codec: Codec, events: seq<Event>, moments: seq<Moment>, i: nat, id: Text)
    requires History(codec, events, moments) && moments != [] && Blank(moments[0])
    requires i < |moments| && id in moments[i].born && id !in moments[i].db.sources
    ensures exists k: nat :: k < i && WentAt(events, moments, k, id) && events[k].PurgeExpired?
  {
    hide History, StartedAt;
    UpTo(codec, events, moments, i);
    var past := moments[..i + 1];
    WhoIsBorn(codec, events, past, id);
    var j: nat, v: Work, before: Match :| StartedAt(codec, events, past, j, v, before, id)
        && |v.log| == past[i].born[id];
    HasRow(codec, events, past, j, v, before, id);
    GoneIsPurged(codec, events, past, j + 1, id);
    var k: nat :| j + 1 <= k && WentAt(events, past, k, id) && events[k].PurgeExpired?;
    assert WentAt(events, moments, k, id);
  }

  lemma {:induction false} UpTo(codec: Codec, events: seq<Event>, moments: seq<Moment>, i: nat)
    requires History(codec, events, moments) && i < |moments|
    ensures History(codec, events, moments[..i + 1])
    decreases |moments|
  {
    hide History;
    if i == |moments| - 1 {
      assert moments[..i + 1] == moments;
    } else {
      HistoryPrefix(codec, events, moments);
      UpTo(codec, events, moments[..|moments| - 1], i);
      assert moments[..|moments| - 1][..i + 1] == moments[..i + 1];
    }
  }

  lemma HasRow(codec: Codec, events: seq<Event>, moments: seq<Moment>, i: nat, w: Work, m: Match, id: Text)
    requires StartedAt(codec, events, moments, i, w, m, id)
    ensures i + 1 < |moments| && id in moments[i + 1].db.sources
  {
    hide PlannedId, ListingOk, Inv, TidyLog, PlannedFrom, BornAfter, SameRows;
  }

  /**
   The log had entries of a row's id before the row was last started, exactly if the row was started again. Only then is
   content delivered a second time other than as copies of one entry.
   */
  lemma UsedBeforeExactly(codec: Codec, events: seq<Event>, moments: seq<Moment>, id: Text)
    requires History(codec, events, moments) && moments != [] && Blank(moments[0])
    requires id in moments[|moments| - 1].db.sources
    ensures var last := moments[|moments| - 1];
      && id in last.born && last.born[id] <= |last.log|
      && (Used(last.log[..last.born[id]], id) <==>
            exists i: nat, w: Work, m: Match ::
              StartedAgain(codec, events, moments, i, w, m, id) && |w.log| == last.born[id])
  {
    hide History, Follows, Inv, IdsIn, Worked, PlannedId, AllAccounted, OnceEach, PendingLined, SpoolOk,
         Retention.KeysMatch;
    var last := moments[|moments| - 1];
    LastInOrder(codec, events, moments);
    if Used(last.log[..last.born[id]], id) {
      WhoIsBorn(codec, events, moments, id);
      var i: nat, w: Work, m: Match :| StartedAt(codec, events, moments, i, w, m, id) && |w.log| == last.born[id];
      LogThen(codec, events, moments, i, w, m, id);
      WhyUsed(codec, events, moments, i, w, m, id);
    }
    if i: nat, w: Work, m: Match :| StartedAgain(codec, events, moments, i, w, m, id) && |w.log| == last.born[id] {
      LogThen(codec, events, moments, i, w, m, id);
    }
  }

  lemma LastInOrder(codec: Codec, events: seq<Event>, moments: seq<Moment>)
    requires History(codec, events, moments) && moments != []
    ensures InOrder(codec, moments[|moments| - 1])
  {
    hide InOrder, Follows;
  }

  /** The log as it was when a run planned is the beginning of the last one. */
  lemma LogThen(codec: Codec, events: seq<Event>, moments: seq<Moment>, i: nat, w: Work, m: Match, id: Text)
    requires History(codec, events, moments) && moments != [] && StartedAt(codec, events, moments, i, w, m, id)
    ensures |w.log| <= |moments[|moments| - 1].log| && moments[|moments| - 1].log[..|w.log|] == w.log
  {
    hide History, RunPlanned;
    LogGrows(codec, events, moments, i + 1);
  }

  /**
   So a byte of a row that was not started again, wherever the whole log carries it, is carried by copies of one entry;
   and what lies at or beyond the row's offset is carried by the pending batch alone.
   */
  lemma DeliveredOnce(codec: Codec, events: seq<Event>, moments: seq<Moment>, id: Text, i: nat, b: byte, c: byte,
                      j: nat, k: nat, l: nat, m: nat)
    requires History(codec, events, moments) && moments != [] && Blank(moments[0])
    requires id in moments[|moments| - 1].db.sources
    requires !exists n: nat, w: Work, f: Match :: StartedAgain(codec, events, moments, n, w, f, id)
    requires var log := moments[|moments| - 1].log;
      && j < |log| && k < |log[j].values| && Carries(log[j].values[k].entry, id, i, b)
      && l < |log| && m < |log[l].values| && Carries(log[l].values[m].entry, id, i, c)
    ensures var log := moments[|moments| - 1].log;
      log[j].values[k].entry == log[l].values[m].entry && b == c
    ensures var last := moments[|moments| - 1];
      i >= last.db.sources[id].progress.offset ==>
        last.db.pending.Some? && InBody(last.log[j].values[k].entry, last.db.pending.value.body)
  {
    hide History, Inv, StartedAgain, SpoolOk, Retention.KeysMatch, Content, Used;
    var last := moments[|moments| - 1];
    LastInOrder(codec, events, moments);
    UsedBeforeExactly(codec, events, moments, id);
    UsedBefore(last.log, last.born[id], j, k);
    UsedBefore(last.log, last.born[id], l, m);
    OneEntryEach(last.born, last.log, id, i, b, c, j, k, l, m);
    assert Accounted(last.log[j].values[k].entry, last.db.sources, last.db.pending);
  }

  lemma UsedBefore(log: seq<Body>, n: nat, j: nat, k: nat)
    requires n <= |log| && j < |log| && k < |log[j].values|
    ensures j < n ==> Used(log[..n], log[j].values[k].entry.sourceId)
  {
    assert j < n ==> log[..n][j] == log[j];
  }

  // ---- What a taken id delivers again --------------------------------------------------------------

  /**
   A row that started over, over a row that stood at some offset: every byte below that offset that its next batch
   carries is in the log already, from the same content.
   */
  lemma TakenDeliversAgain(codec: Codec, log: seq<Body>, id: Text, before: SourceRecord, r: SourceRecord,
                           blob: Option<Bytes>, batch: PendingBatch, i: nat)
    requires codec.Lawful() && RowOk(codec, log, id, before, blob) && Base(before, blob) == blob
    requires r.progress.offset == 0 && r.provenance.verifiedRawSize == 0
          && r.identity.compression == before.identity.compression
    requires blob.Some? && BatchOk(codec, id, r, blob, batch)
    requires i < before.progress.offset && i < batch.progress[0].progress.offset
    ensures var x := codec.decoded(r.identity.compression, blob.value);
      i < |x| && LogHas(log, id, i, x[i]) && BodyHas(batch.body, id, i, x[i])
  {
    hide CompletionOk, ShapeOk, FrozenRead, BatchOk, LogHas, BodyHas;
    BatchCovers(codec, id, r, blob, batch);
  }
}
