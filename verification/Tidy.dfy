/**
 No range is delivered twice except the pending one. Since a row was last started, at nothing, every byte of its source
 was delivered by one entry only, and what lies at or beyond its stored offset comes from the pending batch. `born`
 holds, for every id that ever had a row, how long the log was when its row was last started.
 */
module Tidy {
  import opened Utf8
  import opened LogEntry
  import opened Sources
  import opened Tables
  import opened Delivery
  import opened Coverage
  import F = Fragments

  /** The decoded offset an entry reaches. */
  function EndOf(e: Entry): nat {
    e.offset + |Content(e)|
  }

  predicate InBody(e: Entry, body: Body) {
    exists k :: 0 <= k < |body.values| && body.values[k].entry == e
  }

  /** The body at this place of the log was pushed since the row was started. */
  predicate SinceBirth(born: map<Text, nat>, id: Text, i: nat) {
    id in born && i >= born[id]
  }

  /** An entry lies below the stored offset, or is one of the pending batch. */
  predicate Accounted(e: Entry, sources: map<Text, SourceRecord>, pending: Option<PendingBatch>) {
    e.sourceId in sources ==>
      || EndOf(e) <= sources[e.sourceId].progress.offset
      || (pending.Some? && InBody(e, pending.value.body))
  }

  /** Two entries have no byte in common, or are copies of one. */
  predicate Apart(a: Entry, b: Entry) {
    a == b || EndOf(a) <= b.offset || EndOf(b) <= a.offset
  }

  /** Every row has its birth, and every entry was pushed for an id that had a row. */
  ghost predicate BornOk(born: map<Text, nat>, log: seq<Body>, sources: map<Text, SourceRecord>) {
    && (forall id <- sources :: id in born)
    && (forall id <- born :: born[id] <= |log|)
    && forall i, k :: 0 <= i < |log| && 0 <= k < |log[i].values| ==> log[i].values[k].entry.sourceId in born
  }

  /** Since its row was started, an entry of a source is accounted for. */
  ghost predicate AllAccounted(born: map<Text, nat>, log: seq<Body>, sources: map<Text, SourceRecord>,
                               pending: Option<PendingBatch>)
  {
    forall i, k ::
      && 0 <= i < |log| && 0 <= k < |log[i].values|
      && SinceBirth(born, log[i].values[k].entry.sourceId, i) ==>
        Accounted(log[i].values[k].entry, sources, pending)
  }

  /** Since its row was started, no byte of a source is in two different entries. */
  ghost predicate OnceEach(born: map<Text, nat>, log: seq<Body>) {
    forall i, k, j, l ::
      && 0 <= i < |log| && 0 <= k < |log[i].values| && 0 <= j < |log| && 0 <= l < |log[j].values|
      && log[i].values[k].entry.sourceId == log[j].values[l].entry.sourceId
      && SinceBirth(born, log[i].values[k].entry.sourceId, i)
      && SinceBirth(born, log[i].values[k].entry.sourceId, j) ==>
        Apart(log[i].values[k].entry, log[j].values[l].entry)
  }

  /** The entries of a body are all of one source, lie at or beyond an offset, and have no byte in common. */
  predicate Lined(body: Body, id: Text, from: nat) {
    && (forall k :: 0 <= k < |body.values| ==>
          body.values[k].entry.sourceId == id && from <= body.values[k].entry.offset)
    && forall k, l :: 0 <= k < |body.values| && 0 <= l < |body.values| ==>
         Apart(body.values[k].entry, body.values[l].entry)
  }

  predicate PendingLined(sources: map<Text, SourceRecord>, pending: Option<PendingBatch>) {
    pending.Some? ==>
      && |pending.value.progress| == 1 && pending.value.progress[0].sourceId in sources
      && Lined(pending.value.body, pending.value.progress[0].sourceId,
               sources[pending.value.progress[0].sourceId].progress.offset)
  }

  ghost predicate TidyLog(born: map<Text, nat>, log: seq<Body>, sources: map<Text, SourceRecord>,
                          pending: Option<PendingBatch>)
  {
    && BornOk(born, log, sources) && AllAccounted(born, log, sources, pending) && OnceEach(born, log)
    && PendingLined(sources, pending)
  }

  /** Accepting the pending body, once or again, keeps the log tidy. */
  lemma TidyAccept(born: map<Text, nat>, log: seq<Body>, sources: map<Text, SourceRecord>,
                   pending: Option<PendingBatch>)
    requires TidyLog(born, log, sources, pending) && pending.Some?
    ensures TidyLog(born, log + [pending.value.body], sources, pending)
  {
    hide EndOf, Apart, Lined, OnceEach;
    var body := pending.value.body;
    var longer := log + [body];
    var id := pending.value.progress[0].sourceId;
    LinedIsOf(body, id, sources[id].progress.offset);
    forall i, k | 0 <= i < |longer| && 0 <= k < |longer[i].values|
      ensures longer[i].values[k].entry.sourceId in born
      ensures SinceBirth(born, longer[i].values[k].entry.sourceId, i) ==>
        Accounted(longer[i].values[k].entry, sources, pending)
    {
      if i < |log| {
        assert log[i].values[k] == longer[i].values[k];
      } else {
        assert InBody(longer[i].values[k].entry, body);
      }
    }
    AcceptOnce(born, log, sources, pending);
  }

  lemma LinedIsOf(body: Body, id: Text, from: nat)
    requires Lined(body, id, from)
    ensures forall k :: 0 <= k < |body.values| ==> body.values[k].entry.sourceId == id
  {
  }

  lemma AcceptOnce(born: map<Text, nat>, log: seq<Body>, sources: map<Text, SourceRecord>,
                   pending: Option<PendingBatch>)
    requires AllAccounted(born, log, sources, pending) && OnceEach(born, log) && PendingLined(sources, pending)
          && pending.Some?
    ensures OnceEach(born, log + [pending.value.body])
  {
    hide Apart, EndOf;
    var body := pending.value.body;
    var longer := log + [body];
    forall i, k, j, l |
      && 0 <= i < |longer| && 0 <= k < |longer[i].values| && 0 <= j < |longer| && 0 <= l < |longer[j].values|
      && longer[i].values[k].entry.sourceId == longer[j].values[l].entry.sourceId
      && SinceBirth(born, longer[i].values[k].entry.sourceId, i)
      && SinceBirth(born, longer[i].values[k].entry.sourceId, j)
      ensures Apart(longer[i].values[k].entry, longer[j].values[l].entry)
    {
      var a, b := longer[i].values[k].entry, longer[j].values[l].entry;
      if i < |log| && j < |log| {
        assert log[i].values[k].entry == a && log[j].values[l].entry == b;
      } else if i < |log| {
        assert log[i].values[k].entry == a;
        AgainstBody(a, body, sources, pending, l);
      } else if j < |log| {
        assert log[j].values[l].entry == b;
        AgainstBody(b, body, sources, pending, k);
        ApartBothWays(a, b);
      }
    }
  }

  lemma ApartBothWays(a: Entry, b: Entry)
    ensures Apart(a, b) == Apart(b, a)
  {
  }

  /** An accounted entry has no byte in common with the pending body, or is one of it. */
  lemma AgainstBody(e: Entry, body: Body, sources: map<Text, SourceRecord>, pending: Option<PendingBatch>, l: nat)
    requires PendingLined(sources, pending) && pending.Some? && body == pending.value.body && l < |body.values|
    requires Accounted(e, sources, pending) && e.sourceId == body.values[l].entry.sourceId
    ensures Apart(e, body.values[l].entry)
  {
    if InBody(e, body) {
      var k :| 0 <= k < |body.values| && body.values[k].entry == e;
      assert Apart(body.values[k].entry, body.values[l].entry);
    }
  }

  /** With nothing pending any batch of a row may be saved that begins where the row stands. */
  lemma TidySave(born: map<Text, nat>, log: seq<Body>, sources: map<Text, SourceRecord>, batch: PendingBatch)
    requires TidyLog(born, log, sources, None) && PendingLined(sources, Some(batch))
    ensures TidyLog(born, log, sources, Some(batch))
  {
    hide EndOf, InBody, OnceEach, Lined, SinceBirth;
    forall i, k | 0 <= i < |log| && 0 <= k < |log[i].values| && SinceBirth(born, log[i].values[k].entry.sourceId, i)
      ensures Accounted(log[i].values[k].entry, sources, Some(batch))
    {
      assert Accounted(log[i].values[k].entry, sources, None);
    }
  }

  /** A replacement with the same entries accounts for the same entries. */
  lemma TidyReplace(born: map<Text, nat>, log: seq<Body>, sources: map<Text, SourceRecord>, batch: PendingBatch,
                    next: PendingBatch)
    requires TidyLog(born, log, sources, Some(batch))
    requires |next.body.values| == |batch.body.values| && |next.progress| == 1
    requires next.progress[0].sourceId == batch.progress[0].sourceId
    requires forall k :: 0 <= k < |batch.body.values| ==> next.body.values[k].entry == batch.body.values[k].entry
    ensures TidyLog(born, log, sources, Some(next))
  {
    hide EndOf, OnceEach, Apart, SinceBirth;
    forall i, k | 0 <= i < |log| && 0 <= k < |log[i].values| && SinceBirth(born, log[i].values[k].entry.sourceId, i)
      ensures Accounted(log[i].values[k].entry, sources, Some(next))
    {
      var e := log[i].values[k].entry;
      assert Accounted(e, sources, Some(batch));
      if InBody(e, batch.body) {
        var j :| 0 <= j < |batch.body.values| && batch.body.values[j].entry == e;
        assert next.body.values[j].entry == e;
      }
    }
  }

  /** Rows that do not fall back keep the log tidy, and so do rows that go, while nothing is pending. */
  lemma TidyRows(born: map<Text, nat>, log: seq<Body>, before: map<Text, SourceRecord>, after: map<Text, SourceRecord>)
    requires TidyLog(born, log, before, None)
    requires forall id <- after :: id in before && after[id].progress.offset >= before[id].progress.offset
    ensures TidyLog(born, log, after, None)
  {
    hide EndOf, InBody, OnceEach, SinceBirth;
    forall i, k | 0 <= i < |log| && 0 <= k < |log[i].values| && SinceBirth(born, log[i].values[k].entry.sourceId, i)
      ensures Accounted(log[i].values[k].entry, after, None)
    {
      assert Accounted(log[i].values[k].entry, before, None);
    }
  }

  /** Rows that stand where they stood keep the log tidy whatever is pending. */
  lemma TidySameProgress(born: map<Text, nat>, log: seq<Body>, before: map<Text, SourceRecord>,
                         after: map<Text, SourceRecord>, pending: Option<PendingBatch>)
    requires TidyLog(born, log, before, pending) && before.Keys == after.Keys
    requires forall id <- after :: after[id].progress == before[id].progress
    ensures TidyLog(born, log, after, pending)
  {
    hide EndOf, InBody, OnceEach, SinceBirth, Lined;
    forall i, k | 0 <= i < |log| && 0 <= k < |log[i].values| && SinceBirth(born, log[i].values[k].entry.sourceId, i)
      ensures Accounted(log[i].values[k].entry, after, pending)
    {
      assert Accounted(log[i].values[k].entry, before, pending);
    }
  }

  /** A row that is started now, new or over an old one, owes nothing to the log as it is. */
  lemma TidyStart(born: map<Text, nat>, log: seq<Body>, before: map<Text, SourceRecord>, after: map<Text, SourceRecord>,
                  id: Text)
    requires TidyLog(born, log, before, None)
    requires forall k <- after :: k != id ==> k in before && after[k] == before[k]
    ensures TidyLog(born[id := |log|], log, after, None)
  {
    hide EndOf, InBody, Apart;
    var next := born[id := |log|];
    forall i, k | 0 <= i < |log| && 0 <= k < |log[i].values| && SinceBirth(next, log[i].values[k].entry.sourceId, i)
      ensures Accounted(log[i].values[k].entry, after, None)
    {
      assert SinceBirth(born, log[i].values[k].entry.sourceId, i);
      assert Accounted(log[i].values[k].entry, before, None);
    }
  }

  /** Acknowledging moves the stored offset over everything the pending batch accounted for. */
  lemma TidyAcknowledge(codec: Codec, born: map<Text, nat>, log: seq<Body>, db: Db, after: map<Text, SourceRecord>)
    requires TidyLog(born, log, db.sources, db.pending) && db.pending.Some?
    requires |db.pending.value.progress| == 1 && db.pending.value.progress[0].sourceId in db.sources
    requires var id := db.pending.value.progress[0].sourceId;
      && BatchOk(codec, id, db.sources[id], BlobContent(db, db.sources[id]), db.pending.value)
      && after.Keys == db.sources.Keys
      && (forall k <- after :: k != id ==> after[k] == db.sources[k])
      && after[id].progress == db.pending.value.progress[0].progress
    ensures TidyLog(born, log, after, None)
  {
    hide EndOf, InBody, BatchOk, OnceEach, SinceBirth, Lined;
    var batch := db.pending.value;
    var id := batch.progress[0].sourceId;
    BatchAhead(codec, id, db.sources[id], BlobContent(db, db.sources[id]), batch);
    forall i, k | 0 <= i < |log| && 0 <= k < |log[i].values| && SinceBirth(born, log[i].values[k].entry.sourceId, i)
      ensures Accounted(log[i].values[k].entry, after, None)
    {
      var e := log[i].values[k].entry;
      assert Accounted(e, db.sources, db.pending);
      if InBody(e, batch.body) {
        BatchEntryEnds(codec, id, db.sources[id], BlobContent(db, db.sources[id]), batch, e);
      }
    }
  }

  lemma BatchAhead(codec: Codec, id: Text, r: SourceRecord, blob: Option<Bytes>, batch: PendingBatch)
    requires BatchOk(codec, id, r, blob, batch)
    ensures batch.progress[0].progress.offset >= r.progress.offset
  {
    hide BodyCovers;
    BatchCovers(codec, id, r, blob, batch);
  }

  /** The entries of a batch are of its source and end at or before its own offset. */
  lemma BatchEntryEnds(codec: Codec, id: Text, r: SourceRecord, blob: Option<Bytes>, batch: PendingBatch, e: Entry)
    requires BatchOk(codec, id, r, blob, batch) && InBody(e, batch.body)
    ensures e.sourceId == id && e.offset >= r.progress.offset && EndOf(e) <= batch.progress[0].progress.offset
  {
    hide F.Fragments, Content;
    var x := codec.decoded(r.identity.compression, Base(r, blob).value);
    var st := SettingsFor(codec, id, r, Base(r, blob) == blob);
    var k :| 0 <= k < |batch.body.values| && batch.body.values[k].entry == e;
    LastContent(x, ResumeAt(r), st, k);
    F.OffsetsAhead(x[r.progress.offset..], ResumeAt(r), st, k + 1, |batch.body.values|);
    F.OffsetsAhead(x[r.progress.offset..], ResumeAt(r), st, 0, k);
  }

  /** No two of them have a byte in common. */
  lemma BatchIsLined(codec: Codec, id: Text, r: SourceRecord, blob: Option<Bytes>, batch: PendingBatch)
    requires BatchOk(codec, id, r, blob, batch)
    ensures Lined(batch.body, id, r.progress.offset)
  {
    hide BatchOk, Apart, EndOf;
    forall k | 0 <= k < |batch.body.values|
      ensures batch.body.values[k].entry.sourceId == id && r.progress.offset <= batch.body.values[k].entry.offset
    {
      assert InBody(batch.body.values[k].entry, batch.body);
      BatchEntryEnds(codec, id, r, blob, batch, batch.body.values[k].entry);
    }
    forall k, l | 0 <= k < |batch.body.values| && 0 <= l < |batch.body.values|
      ensures Apart(batch.body.values[k].entry, batch.body.values[l].entry)
    {
      ApartBothWays(batch.body.values[k].entry, batch.body.values[l].entry);
      if k < l {
        EntriesApart(codec, id, r, blob, batch, k, l);
      } else if l < k {
        EntriesApart(codec, id, r, blob, batch, l, k);
      } else {
        SameIsApart(batch.body.values[k].entry);
      }
    }
  }

  lemma SameIsApart(e: Entry)
    ensures Apart(e, e)
  {
  }

  lemma EntriesApart(codec: Codec, id: Text, r: SourceRecord, blob: Option<Bytes>, batch: PendingBatch, k: nat, l: nat)
    requires BatchOk(codec, id, r, blob, batch) && k < l < |batch.body.values|
    ensures Apart(batch.body.values[k].entry, batch.body.values[l].entry)
  {
    hide F.Fragments, Content;
    var x := codec.decoded(r.identity.compression, Base(r, blob).value);
    var st := SettingsFor(codec, id, r, Base(r, blob) == blob);
    LastContent(x, ResumeAt(r), st, k);
    LastContent(x, ResumeAt(r), st, l);
    F.OffsetsAhead(x[r.progress.offset..], ResumeAt(r), st, k + 1, l);
  }

  /**
   So a byte at or beyond the stored offset was pushed since the row was started only by the pending batch, whose range
   alone can be delivered again.
   */
  lemma OnlyPendingRepeats(codec: Codec, born: map<Text, nat>, log: seq<Body>, db: Db, id: Text, i: nat, b: byte)
    requires Inv(codec, log, db) && TidyLog(born, log, db.sources, db.pending)
    requires id in db.sources && i >= db.sources[id].progress.offset && LogHas(log[born[id]..], id, i, b)
    ensures db.pending.Some? && |db.pending.value.progress| == 1
    ensures var d := db.pending.value.progress[0]; d.sourceId == id && i < d.progress.offset
  {
    hide RowsOk, BatchOk, Content, OnceEach, PendingLined;
    var recent := log[born[id]..];
    var n :| 0 <= n < |recent| && BodyHas(recent[n], id, i, b);
    var k :| 0 <= k < |recent[n].values| && Carries(recent[n].values[k].entry, id, i, b);
    var e := recent[n].values[k].entry;
    assert log[born[id] + n] == recent[n];
    assert Accounted(e, db.sources, db.pending);
    var owner := db.pending.value.progress[0].sourceId;
    BatchEntryEnds(codec, owner, db.sources[owner], BlobContent(db, db.sources[owner]), db.pending.value, e);
  }

  /** And a byte of a source, wherever it is found since the row was started, is found in copies of one entry. */
  lemma OneEntryEach(born: map<Text, nat>, log: seq<Body>, id: Text, i: nat, b: byte, c: byte, j: nat, k: nat, l: nat,
                     m: nat)
    requires OnceEach(born, log) && SinceBirth(born, id, j) && SinceBirth(born, id, l)
    requires j < |log| && k < |log[j].values| && Carries(log[j].values[k].entry, id, i, b)
    requires l < |log| && m < |log[l].values| && Carries(log[l].values[m].entry, id, i, c)
    ensures log[j].values[k].entry == log[l].values[m].entry && b == c
  {
    hide Content;
    assert Apart(log[j].values[k].entry, log[l].values[m].entry);
  }
}
