/** The queue of values waiting to be pushed: which stretch of its source it is, and how long its body will be. */
module Batching {
  import opened Utf8
  import opened LogEntry
  import opened Sources
  import opened Tables
  import opened Delivery
  import opened Coverage
  import F = Fragments
  import Json

  /** Maximum encoded push body. */
  const MAX_BODY_BYTES: nat := 512 * 1024

  /** Labels up to this length leave room for the largest value in a body of its own. */
  const MAX_LABELS: nat := 250000

  /** One value waiting to be pushed, and the cursor after it. */
  datatype Queued = Queued(timestamp: nat, entry: Entry, next: F.Cursor)

  function ValuesOf(queue: seq<Queued>): (r: seq<Value>)
    ensures |r| == |queue|
    ensures forall i :: 0 <= i < |queue| ==> r[i] == Value(queue[i].timestamp, queue[i].entry)
  {
    seq(|queue|, i requires 0 <= i < |queue| => Value(queue[i].timestamp, queue[i].entry))
  }

  /** The progress a pushed queue stands for; only a completing one carries the digest. */
  function DeltaFor(id: Text, queue: seq<Queued>, complete: bool, digest: Option<Digest>): Delta
    requires queue != []
  {
    var last := queue[|queue| - 1];
    Delta(id, last.next, last.timestamp, complete && digest.Some?, if complete then digest else None)
  }

  // ---- Sizes ---------------------------------------------------------------------------------------

  function EncodedValue(q: Queued): Bytes {
    Json.EncodeValue(q.timestamp, EncodeEntry(q.entry))
  }

  function BodySize(labels: Bytes, queue: seq<Queued>): nat {
    |EncodeBody(Body(labels, ValuesOf(queue)))|
  }

  /** Queueing a value lengthens the body by the value, and by a comma when it is not the first. */
  lemma QueueSize(labels: Bytes, queue: seq<Queued>, q: Queued)
    ensures BodySize(labels, queue + [q])
        == BodySize(labels, queue) + |EncodedValue(q)| + (if queue == [] then 0 else 1)
  {
    hide Json.EncodeValue, EncodeEntry, Json.BuildBody;
    var values := ValuesOf(queue);
    assert ValuesOf(queue + [q]) == values + [Value(q.timestamp, q.entry)];
    assert (values + [Value(q.timestamp, q.entry)])[..|values|] == values;
    Json.BodyLength(labels, EncodeEach(values), EncodedValue(q));
  }

  /** One value always fits a body of its own, if the labels leave it room. */
  lemma OneValueFits(labels: Bytes, q: Queued)
    requires |labels| <= MAX_LABELS && q.timestamp < Json.PowerOfTen(20) && |EncodeEntry(q.entry)| <= MAX_ENTRY_BYTES
    ensures BodySize(labels, []) + |EncodedValue(q)| <= MAX_BODY_BYTES
  {
    hide EncodeEntry, Json.EncodeValue;
    ValueFitsBody(q.timestamp, q.entry);
    EmptySize(labels);
  }

  lemma EmptySize(labels: Bytes)
    ensures BodySize(labels, []) == |labels| + 37
  {
    assert EncodeEach(ValuesOf([])) == [];
  }

  // ---- Which stretch of the source -----------------------------------------------------------------

  /**
   The row has moved from `r0` to where the (b+1)-th of its remaining fragments starts, and is otherwise as it was.
   */
  ghost predicate AtPiece(codec: Codec, id: Text, r0: SourceRecord, r: SourceRecord, blob: Option<Bytes>, b: nat) {
    && HasPieces(codec, r0, blob)
    && var fs := Pieces(codec, id, r0, blob);
       && b <= |fs|
       && ResumeAt(r) == F.CursorAt(fs, ResumeAt(r0), b)
       && r == r0.(progress := r.progress, streamTsNs := r.streamTsNs, acknowledged := r.acknowledged,
                   updatedNs := r.updatedNs)
  }

  /** The queue holds the fragments from the (b+1)-th to the i-th. */
  predicate Holds(queue: seq<Queued>, fs: seq<F.LogFragment>, b: nat, i: nat) {
    && b <= i <= |fs| && |queue| == i - b
    && forall k :: 0 <= k < |queue| ==> queue[k].entry == fs[b + k].entry && queue[k].next == fs[b + k].next
  }

  /** The queue is the next stretch of its source. */
  ghost predicate QueueOk(codec: Codec, id: Text, r: SourceRecord, blob: Option<Bytes>, queue: seq<Queued>,
                          complete: bool, digest: Option<Digest>)
  {
    && queue != []
    && BatchOk(codec, id, r, blob, PendingBatch([], Body([], ValuesOf(queue)), 0,
                                                [DeltaFor(id, queue, complete, digest)]))
  }

  /** What remains at a later fragment is the rest of the fragments. */
  lemma PiecesFrom(codec: Codec, id: Text, r0: SourceRecord, r: SourceRecord, blob: Option<Bytes>, b: nat)
    requires AtPiece(codec, id, r0, r, blob, b)
    ensures HasPieces(codec, r, blob)
    ensures Pieces(codec, id, r, blob) == Pieces(codec, id, r0, blob)[b..]
  {
    hide F.Fragments;
    var x := codec.decoded(r0.identity.compression, Base(r0, blob).value);
    var st := SettingsFor(codec, id, r0, Base(r0, blob) == blob);
    F.ResumeAnywhere(x[r0.progress.offset..], ResumeAt(r0), st, b);
    assert x[r0.progress.offset..][r.progress.offset - r0.progress.offset..] == x[r.progress.offset..];
  }

  /** A queue of consecutive fragments is the next stretch; a completing one must reach the end of the source. */
  lemma QueueReady(codec: Codec, id: Text, r0: SourceRecord, r: SourceRecord, blob: Option<Bytes>, queue: seq<Queued>,
                   b: nat, i: nat, complete: bool, digest: Option<Digest>)
    requires AtPiece(codec, id, r0, r, blob, b) && Holds(queue, Pieces(codec, id, r0, blob), b, i) && queue != []
    requires complete ==>
      && digest == Some(Sha256(Base(r0, blob).value))
      && queue[|queue| - 1].next.offset == |codec.decoded(r0.identity.compression, Base(r0, blob).value)|
      && codec.wellFormed(r0.identity.compression, Base(r0, blob).value)
    ensures QueueOk(codec, id, r, blob, queue, complete, digest)
  {
    hide Pieces;
    PiecesFrom(codec, id, r0, r, blob, b);
  }

  /** Once pushed, the row stands at the fragment after the queue. */
  lemma AfterQueue(codec: Codec, id: Text, r0: SourceRecord, r: SourceRecord, blob: Option<Bytes>, queue: seq<Queued>,
                   b: nat, i: nat, now: nat)
    requires AtPiece(codec, id, r0, r, blob, b) && Holds(queue, Pieces(codec, id, r0, blob), b, i) && queue != []
    ensures AtPiece(codec, id, r0, ApplyDelta(r, DeltaFor(id, queue, false, None), now), blob, i)
  {
    hide F.Fragments, F.TakeStep;
    var fs := Pieces(codec, id, r0, blob);
    var x := codec.decoded(r0.identity.compression, Base(r0, blob).value);
    F.LinesArePositive(x[r0.progress.offset..], ResumeAt(r0), SettingsFor(codec, id, r0, Base(r0, blob) == blob), i);
  }

  lemma HoldsNothing(queue: seq<Queued>, fs: seq<F.LogFragment>, b: nat, i: nat)
    requires Holds(queue, fs, b, i)
    ensures Holds([], fs, i, i) && Holds([], fs, b, b)
    ensures queue != [] ==> queue[|queue| - 1].next == fs[i - 1].next
  {
  }

  lemma HoldsMore(queue: seq<Queued>, fs: seq<F.LogFragment>, b: nat, i: nat, q: Queued)
    requires Holds(queue, fs, b, i) && i < |fs| && q.entry == fs[i].entry && q.next == fs[i].next
    ensures Holds(queue + [q], fs, b, i + 1)
  {
  }

  /** Moving along the source changes neither the row's blob nor where the queue has brought it. */
  lemma SameBlob(codec: Codec, id: Text, r0: SourceRecord, before: SourceRecord, after: SourceRecord,
                 blob: Option<Bytes>, b: nat, i: nat)
    requires AtPiece(codec, id, r0, before, blob, b) && AtPiece(codec, id, r0, after, blob, i)
    ensures before.blob == after.blob && before.digest == after.digest && before.identity == after.identity
  {
  }

  /** In a run that has pushed nothing, the first remaining fragment fits whatever the budget of one MiB allows. */
  lemma FirstFits(codec: Codec, id: Text, r0: SourceRecord, blob: Option<Bytes>, q: Queued, labels: Bytes, i: nat)
    requires HasPieces(codec, r0, blob)
    requires i < |Pieces(codec, id, r0, blob)|
    requires q.entry == Pieces(codec, id, r0, blob)[i].entry && q.next == Pieces(codec, id, r0, blob)[i].next
    ensures |labels| <= MAX_LABELS && q.timestamp < Json.PowerOfTen(20) ==>
      BodySize(labels, []) + |EncodedValue(q)| <= MAX_BODY_BYTES
    ensures i == 0 ==> q.next.offset - r0.progress.offset <= MAX_RAW_FRAGMENT + 1
  {
    hide F.Fragments, EncodeEntry, Json.EncodeValue, EncodeBody, Content;
    var fs := Pieces(codec, id, r0, blob);
    PieceSize(codec, id, r0, blob, i);
    if |labels| <= MAX_LABELS && q.timestamp < Json.PowerOfTen(20) {
      OneValueFits(labels, q);
    }
  }

  lemma PieceSize(codec: Codec, id: Text, r0: SourceRecord, blob: Option<Bytes>, i: nat)
    requires HasPieces(codec, r0, blob)
    requires i < |Pieces(codec, id, r0, blob)|
    ensures var fs := Pieces(codec, id, r0, blob);
      && |EncodeEntry(fs[i].entry)| <= MAX_ENTRY_BYTES
      && fs[i].next.offset - F.CursorAt(fs, ResumeAt(r0), i).offset <= MAX_RAW_FRAGMENT + 1
  {
    hide F.Fragments, EncodeEntry, Content;
    var x := codec.decoded(r0.identity.compression, Base(r0, blob).value);
    var st := SettingsFor(codec, id, r0, Base(r0, blob) == blob);
    F.FragmentAt(x[r0.progress.offset..], ResumeAt(r0), st, i);
    F.FragmentSize(x[r0.progress.offset..], ResumeAt(r0), st, i);
  }

  /** The fragment being queued ends beyond where the row stands. */
  lemma QueueAhead(codec: Codec, id: Text, r0: SourceRecord, r: SourceRecord, blob: Option<Bytes>, b: nat, i: nat)
    requires AtPiece(codec, id, r0, r, blob, b) && b <= i < |Pieces(codec, id, r0, blob)|
    ensures r.progress.offset < Pieces(codec, id, r0, blob)[i].next.offset
  {
    hide F.Fragments;
    var x := codec.decoded(r0.identity.compression, Base(r0, blob).value);
    var st := SettingsFor(codec, id, r0, Base(r0, blob) == blob);
    F.OffsetsAhead(x[r0.progress.offset..], ResumeAt(r0), st, b, i + 1);
  }

  lemma BodySizePositive(labels: Bytes, queue: seq<Queued>)
    ensures BodySize(labels, queue) > 0
  {
    hide EncodeEach;
  }
}
