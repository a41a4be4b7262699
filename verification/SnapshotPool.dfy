/**
 The pool that fetches many frozen ranges in one transfer: bounded batches of consecutive hints, at most one kept at
 a time, and never dropped under an open handle.
 */
module SnapshotPool {
  import opened LogEntry
  import S = StreamReader
  import F = Fragments

  const MAX_POOL_RANGES: nat := 64
  const MANIFEST_LIMIT: nat := 64 * 1024
  const RECORD_ALLOWANCE: nat := 512

  /** A request names one range of one captured blob; equal keys are equal ranges. */
  datatype Request = Request(blob: string, offset: nat, length: nat)

  /** One advertised range, and its share of the transfer's manifest. */
  datatype Hint = Hint(request: Request, estimate: nat)

  /** A plan's frozen input as it is offered to the pool; None when it is not poolable. */
  datatype Offer = Offer(blob: string, offset: nat, length: nat, keySize: nat)

  function HintFor(o: Offer): Option<Hint> {
    if o.length == 0 then None
    else Some(Hint(Request(o.blob, o.offset, F.Min(o.length, S.MAX_FETCH_BYTES)), o.keySize + RECORD_ALLOWANCE))
  }

  predicate SmallHints(hints: seq<Hint>) {
    forall h <- hints :: 0 < h.request.length <= S.MAX_FETCH_BYTES
  }

  predicate DistinctHints(hints: seq<Hint>) {
    forall i, j :: 0 <= i < j < |hints| ==> hints[i].request != hints[j].request
  }

  function TotalLength(hints: seq<Hint>): nat {
    if hints == [] then 0 else TotalLength(hints[..|hints| - 1]) + hints[|hints| - 1].request.length
  }

  function TotalEstimate(hints: seq<Hint>): nat {
    if hints == [] then 0 else TotalEstimate(hints[..|hints| - 1]) + hints[|hints| - 1].estimate
  }

  /** One batch: the hints from `first` up to `end`. */
  datatype Batch = Batch(first: nat, end: nat)

  /** A batch is a run of consecutive hints within every bound; only a single hint may exceed the manifest bound. */
  predicate BatchOk(hints: seq<Hint>, b: Batch) {
    && b.first < b.end <= |hints|
    && b.end - b.first <= MAX_POOL_RANGES
    && TotalLength(hints[b.first..b.end]) <= S.MAX_FETCH_BYTES
    && (b.end - b.first > 1 ==> TotalEstimate(hints[b.first..b.end]) <= MANIFEST_LIMIT)
  }

  /** Batches requested one after the other, none overlapping another, all before the cursor. */
  predicate Requested(hints: seq<Hint>, batches: seq<Batch>, cursor: nat) {
    && (forall b <- batches :: BatchOk(hints, b) && b.end <= cursor)
    && forall i, j :: 0 <= i < j < |batches| ==> batches[i].end <= batches[j].first
  }

  /** So no advertised range is requested twice. */
  lemma RequestedOnce(hints: seq<Hint>, batches: seq<Batch>, cursor: nat, i: nat, j: nat, k: nat, l: nat)
    requires DistinctHints(hints) && Requested(hints, batches, cursor)
    requires i < |batches| && j < |batches| && batches[i].first <= k < batches[i].end
          && batches[j].first <= l < batches[j].end
    ensures l < |hints| && k < |hints|
    ensures hints[k].request == hints[l].request ==> k == l && i == j
  {
    assert batches[i] in batches && batches[j] in batches;
  }

  /** Adding the next hint to a run adds its length and its estimate. */
  lemma TotalsGrow(hints: seq<Hint>, start: nat, end: nat)
    requires start <= end < |hints|
    ensures TotalLength(hints[start..end + 1]) == TotalLength(hints[start..end]) + hints[end].request.length
    ensures TotalEstimate(hints[start..end + 1]) == TotalEstimate(hints[start..end]) + hints[end].estimate
  {
    assert hints[start..end + 1][..end - start] == hints[start..end];
  }

  /** The hints that are advertised: in plan order, each range once, where it is first offered. */
  function Advertised(offers: seq<Offer>): seq<Hint> {
    if offers == [] then []
    else
      var before := Advertised(offers[..|offers| - 1]);
      var hint := HintFor(offers[|offers| - 1]);
      if hint.Some? && forall h <- before :: h.request != hint.value.request then before + [hint.value] else before
  }

  /** Every poolable offer is advertised once, and what is advertised was offered. */
  lemma {:induction false} AdvertisesAll(offers: seq<Offer>)
    ensures DistinctHints(Advertised(offers)) && SmallHints(Advertised(offers))
    ensures forall o <- offers :: HintFor(o).Some? ==>
      exists h <- Advertised(offers) :: h.request == HintFor(o).value.request
    ensures forall h <- Advertised(offers) :: exists o <- offers :: HintFor(o) == Some(h)
  {
    if offers != [] {
      var last := offers[|offers| - 1];
      AdvertisesAll(offers[..|offers| - 1]);
      assert offers == offers[..|offers| - 1] + [last];
      if HintFor(last).Some? && HintFor(last).value in Advertised(offers) {
        assert last in offers;
      }
    }
  }

  /** How far a batch starting here can reach: at least one hint, then as many as every bound allows. */
  method BatchEnd(hints: seq<Hint>, start: nat) returns (end: nat)
    requires SmallHints(hints) && start < |hints|
    ensures BatchOk(hints, Batch(start, end))
    ensures end < |hints| ==>
      || end - start == MAX_POOL_RANGES
      || TotalLength(hints[start..end + 1]) > S.MAX_FETCH_BYTES
      || TotalEstimate(hints[start..end + 1]) > MANIFEST_LIMIT
  {
    assert TotalLength(hints[start..start]) == 0 && TotalEstimate(hints[start..start]) == 0;
    hide TotalLength, TotalEstimate;
    end := start;
    var total, estimate := 0, 0;
    while end < |hints|
      invariant start <= end <= |hints| && end - start <= MAX_POOL_RANGES
      invariant total == TotalLength(hints[start..end]) <= S.MAX_FETCH_BYTES
      invariant estimate == TotalEstimate(hints[start..end]) && (end - start > 1 ==> estimate <= MANIFEST_LIMIT)
    {
      var hint := hints[end];
      TotalsGrow(hints, start, end);
      if end - start >= MAX_POOL_RANGES {
        break;
      }
      if end > start && total + hint.request.length > S.MAX_FETCH_BYTES {
        break;
      }
      if end > start && estimate + hint.estimate > MANIFEST_LIMIT {
        break;
      }
      total, estimate, end := total + hint.request.length, estimate + hint.estimate, end + 1;
    }
  }

  datatype Taken = Miss | Served(index: nat) | TransportFailed

  /** The pool: the batch it keeps, what of it was not served yet, and how many readers are open on it. */
  class RemoteSnapshotPool {
    const hints: seq<Hint>
    var order: map<Request, nat>
    var cursor: nat
    var kept: Option<Batch>
    var served: map<Request, nat>
    var handles: nat
    ghost var batches: seq<Batch>

    ghost predicate Valid()
      reads this
    {
      && SmallHints(hints) && DistinctHints(hints)
      && (forall i :: 0 <= i < |hints| ==> hints[i].request in order && order[hints[i].request] == i)
      && (forall r <- order :: order[r] < |hints| && hints[order[r]].request == r)
      && cursor <= |hints|
      && Requested(hints, batches, cursor)
      && (kept.Some? ==> batches != [] && kept.value == batches[|batches| - 1])
      && (kept.None? ==> served == map[])
      && (forall r <- served :: kept.value.first <= served[r] < kept.value.end && r in order && served[r] == order[r])
    }

    /** Advertise the poolable inputs in plan order; a range offered twice is advertised once. */
    constructor (offers: seq<Offer>)
      ensures Valid() && handles == 0 && batches == [] && cursor == 0
      ensures hints == Advertised(offers)
    {
      var list: seq<Hint> := [];
      var index: map<Request, nat> := map[];
      for i := 0 to |offers|
        invariant SmallHints(list) && DistinctHints(list)
        invariant forall k :: 0 <= k < |list| ==> list[k].request in index && index[list[k].request] == k
        invariant forall r <- index :: index[r] < |list| && list[index[r]].request == r
        invariant list == Advertised(offers[..i])
      {
        assert offers[..i + 1][..i] == offers[..i];
        var hint := HintFor(offers[i]);
        if hint.Some? && hint.value.request !in index {
          index := index[hint.value.request := |list|];
          list := list + [hint.value];
        }
      }
      assert offers[..|offers|] == offers;
      hints, order, cursor, kept, served, handles, batches := list, index, 0, None, map[], 0, [];
    }

    /** Fetch one batch from a hint on; the range that asked for it is always among those it serves. */
    method LoadBatch(start: nat) returns (ok: bool)
      requires Valid() && cursor <= start < |hints| && handles == 0
      modifies this`cursor, this`kept, this`served, this`batches
      ensures Valid() && cursor > start
      ensures exists b: Batch :: b.first == start && batches == old(batches) + [b]
      ensures ok ==> kept.Some? && kept.value.first == start < kept.value.end <= |hints|
      ensures ok ==> forall i :: start <= i < kept.value.end ==> hints[i].request in served
      ensures !ok ==> kept.None? && served == map[]
    {
      hide BatchOk, SmallHints, DistinctHints;
      var end := BatchEnd(hints, start);
      var batch := Batch(start, end);
      RequestMore(hints, batches, cursor, batch);
      BatchForward(hints, batch);
      hide Requested;
      cursor := end;
      kept, served := None, map[];
      batches := batches + [batch];
      ok := *;
      if ok {
        kept := Some(batch);
        served := map r | r in order && start <= order[r] < end :: order[r];
      }
    }

    /**
     Serve one range, fetching its batch if need be. A range is served at most once for each time it is fetched;
     while a handle is open nothing is fetched, so the data under the handle stays.
     */
    method Take(request: Request) returns (taken: Taken)
      requires Valid()
      modifies this`cursor, this`kept, this`served, this`batches, this`handles
      ensures Valid()
      ensures taken.Served? ==>
        && taken.index < |hints| && hints[taken.index].request == request
        && kept.Some? && kept.value.first <= taken.index < kept.value.end
        && handles == old(handles) + 1 && request !in served
      ensures request in old(served) ==> taken.Served? && served == old(served) - {request} && batches == old(batches)
      ensures old(handles) > 0 ==> kept == old(kept) && batches == old(batches)
      ensures taken.Miss? ==>
        kept == old(kept) && served == old(served) && batches == old(batches) && handles == old(handles)
      ensures taken.Miss? <==>
        request !in old(served) && (request !in order || order[request] < old(cursor) || old(handles) > 0)
      ensures taken.TransportFailed? ==> handles == old(handles) == 0 && kept.None?
    {
      hide Requested, SmallHints, DistinctHints;
      if request in served {
        taken := Serve(request);
        return;
      }
      if request !in order || order[request] < cursor || handles > 0 {
        return Miss;
      }
      var ok := LoadBatch(order[request]);
      if !ok {
        return TransportFailed;
      }
      assert hints[order[request]].request in served;
      taken := Serve(request);
    }

    method Serve(request: Request) returns (taken: Taken)
      requires Valid() && request in served
      modifies this`served, this`handles
      ensures Valid() && taken == Served(old(served)[request])
      ensures served == old(served) - {request} && handles == old(handles) + 1
      ensures taken.index < |hints| && hints[taken.index].request == request
      ensures kept.Some? && kept.value.first <= taken.index < kept.value.end
    {
      hide Requested, SmallHints, DistinctHints;
      taken := Served(served[request]);
      served := served - {request};
      handles := handles + 1;
    }

    method Release()
      requires Valid()
      modifies this`handles
      ensures Valid() && handles == if old(handles) > 0 then old(handles) - 1 else 0
    {
      if handles > 0 {
        handles := handles - 1;
      }
    }
  }

  lemma RequestMore(hints: seq<Hint>, batches: seq<Batch>, cursor: nat, b: Batch)
    requires Requested(hints, batches, cursor) && BatchOk(hints, b) && cursor <= b.first
    ensures Requested(hints, batches + [b], b.end)
  {
    hide BatchOk;
    assert BatchOk(hints, b);
    var all := batches + [b];
    forall i | 0 <= i < |all|
      ensures BatchOk(hints, all[i]) && all[i].end <= b.end
    {
      if i < |batches| {
        assert batches[i] in batches;
        BatchForward(hints, b);
      }
    }
    forall i, j | 0 <= i < j < |all|
      ensures all[i].end <= all[j].first
    {
      assert batches[i] in batches;
    }
  }

  lemma BatchForward(hints: seq<Hint>, b: Batch)
    requires BatchOk(hints, b)
    ensures b.first < b.end <= |hints|
  {
  }
}
