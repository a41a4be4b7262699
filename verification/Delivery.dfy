/**
 What "delivered" means, and the invariant that ties every stored row to the push bodies the log store has
 accepted. The log of accepted bodies only grows; the step lemmas show that each transaction of an import run
 keeps the invariant when its caller has the evidence it needs.
 */
module Delivery {
  import opened Utf8
  import opened LogEntry
  import opened Sources
  import opened Tables
  import F = Fragments

  /**
   The decompressor: the bytes a raw prefix decodes to, and whether the raw bytes are complete, uncorrupted frames.
   A streaming decoder never takes back what it has produced, so a longer input extends the output (section
   2.2 of RFC 1952 for concatenated members). `shrinkTarget` is the fragmenter's length estimate.
   */
  datatype Codec = Codec(
    decoded: (Compression, Bytes) -> Bytes,
    wellFormed: (Compression, Bytes) -> bool,
    shrinkTarget: (nat, nat) -> int)
  {
    ghost predicate Lawful() {
      && (forall raw: Bytes :: decoded(Plain, raw) == raw)
      && (forall c: Compression :: decoded(c, []) == [])
      && (forall raw: Bytes :: wellFormed(Plain, raw))
      && (forall c: Compression :: wellFormed(c, []))
      && (forall c: Compression, raw: Bytes, longer: Bytes | raw <= longer :: decoded(c, raw) <= decoded(c, longer))
    }
  }

  // ---- Accepted bytes ------------------------------------------------------------------------------

  /** The entry carries byte `b` of the source's decoded stream at offset `i`. */
  predicate Carries(e: Entry, id: Text, i: nat, b: byte) {
    e.sourceId == id && e.offset <= i < e.offset + |Content(e)| && Content(e)[i - e.offset] == b
  }

  ghost predicate BodyHas(body: Body, id: Text, i: nat, b: byte) {
    exists k :: 0 <= k < |body.values| && Carries(body.values[k].entry, id, i, b)
  }

  ghost predicate LogHas(log: seq<Body>, id: Text, i: nat, b: byte) {
    exists k :: 0 <= k < |log| && BodyHas(log[k], id, i, b)
  }

  ghost predicate BodyCovers(body: Body, id: Text, x: Bytes, lo: nat, hi: nat)
    requires hi <= |x|
  {
    forall i :: lo <= i < hi ==> BodyHas(body, id, i, x[i])
  }

  /** The first `n` bytes of `x` can be read back from accepted bodies under one source id. */
  ghost predicate Covered(log: seq<Body>, id: Text, x: Bytes, n: nat)
    requires n <= |x|
  {
    forall i :: 0 <= i < n ==> LogHas(log, id, i, x[i])
  }

  /** Every byte of `x` was delivered, under some source id. */
  ghost predicate Delivered(log: seq<Body>, x: Bytes) {
    exists id: Text :: Covered(log, id, x, |x|)
  }

  /** The raw content decodes to its end, and every byte it decodes to was delivered. */
  ghost predicate Archived(codec: Codec, log: seq<Body>, c: Compression, raw: Bytes) {
    codec.wellFormed(c, raw) && Delivered(log, codec.decoded(c, raw))
  }

  lemma LogHasGrows(log: seq<Body>, body: Body, id: Text, i: nat, b: byte)
    requires LogHas(log, id, i, b)
    ensures LogHas(log + [body], id, i, b)
  {
    var k :| 0 <= k < |log| && BodyHas(log[k], id, i, b);
    assert (log + [body])[k] == log[k];
  }

  lemma CoveredGrows(log: seq<Body>, body: Body, id: Text, x: Bytes, n: nat)
    requires n <= |x| && Covered(log, id, x, n)
    ensures Covered(log + [body], id, x, n)
  {
    forall i | 0 <= i < n
      ensures LogHas(log + [body], id, i, x[i])
    {
      LogHasGrows(log, body, id, i, x[i]);
    }
  }

  lemma DeliveredGrows(log: seq<Body>, body: Body, x: Bytes)
    requires Delivered(log, x)
    ensures Delivered(log + [body], x)
  {
    var id: Text :| Covered(log, id, x, |x|);
    CoveredGrows(log, body, id, x, |x|);
  }

  lemma DeliveredPrefix(log: seq<Body>, x: Bytes, y: Bytes)
    requires Delivered(log, x) && y <= x
    ensures Delivered(log, y)
  {
    var id: Text :| Covered(log, id, x, |x|);
    assert Covered(log, id, y, |y|);
  }

  lemma DeliveredEmpty(log: seq<Body>)
    ensures Delivered(log, [])
  {
    assert Covered(log, [], [], 0);
  }

  lemma CoveredPrefix(log: seq<Body>, id: Text, x: Bytes, y: Bytes, n: nat)
    requires y <= x && n <= |y| && Covered(log, id, y, n)
    ensures Covered(log, id, x, n)
  {
  }

  /** An accepted batch extends what was covered before it. */
  lemma CoveredJoin(log: seq<Body>, body: Body, id: Text, x: Bytes, lo: nat, hi: nat)
    requires lo <= hi <= |x|
    requires Covered(log, id, x, lo) && body in log && BodyCovers(body, id, x, lo, hi)
    ensures Covered(log, id, x, hi)
  {
    var k :| 0 <= k < |log| && log[k] == body;
    forall i | 0 <= i < hi
      ensures LogHas(log, id, i, x[i])
    {
      if i >= lo {
        assert BodyHas(log[k], id, i, x[i]);
      }
    }
  }

  /** A body made from consecutive fragments of a run covers exactly the stretch they span. */
  lemma FragmentsCover(body: Body, x: Bytes, cur: F.Cursor, st: F.Settings, i: nat, j: nat)
    requires st.Usable() && cur.offset <= |x|
    requires i <= j <= |F.Fragments(x[cur.offset..], cur, st).fragments| && |body.values| == j - i
    requires var fs := F.Fragments(x[cur.offset..], cur, st).fragments;
      forall k :: 0 <= k < j - i ==> body.values[k].entry == fs[i + k].entry
    ensures var fs := F.Fragments(x[cur.offset..], cur, st).fragments;
      var lo, hi := F.CursorAt(fs, cur, i).offset, F.CursorAt(fs, cur, j).offset;
      lo <= hi <= |x| && BodyCovers(body, st.sourceId, x, lo, hi)
    decreases j
  {
    hide F.Fragments, F.TakeStep, Carries;
    var fs := F.Fragments(x[cur.offset..], cur, st).fragments;
    F.ResumeAnywhere(x[cur.offset..], cur, st, i);
    F.ResumeAnywhere(x[cur.offset..], cur, st, j);
    if i < j {
      var shorter := body.(values := body.values[..j - i - 1]);
      FragmentsCover(shorter, x, cur, st, i, j - 1);
      LastFragmentCovers(body, x, cur, st, i, j);
    }
  }

  lemma LastFragmentCovers(body: Body, x: Bytes, cur: F.Cursor, st: F.Settings, i: nat, j: nat)
    requires st.Usable() && cur.offset <= |x|
    requires i < j <= |F.Fragments(x[cur.offset..], cur, st).fragments| && |body.values| == j - i
    requires var fs := F.Fragments(x[cur.offset..], cur, st).fragments;
      forall k :: 0 <= k < j - i ==> body.values[k].entry == fs[i + k].entry
    requires var fs := F.Fragments(x[cur.offset..], cur, st).fragments;
      var lo, mid := F.CursorAt(fs, cur, i).offset, F.CursorAt(fs, cur, j - 1).offset;
      && lo <= mid <= |x|
      && BodyCovers(body.(values := body.values[..j - i - 1]), st.sourceId, x, lo, mid)
    ensures var fs := F.Fragments(x[cur.offset..], cur, st).fragments;
      var lo, hi := F.CursorAt(fs, cur, i).offset, F.CursorAt(fs, cur, j).offset;
      lo <= hi <= |x| && BodyCovers(body, st.sourceId, x, lo, hi)
  {
    hide F.Fragments, F.TakeStep, Content;
    var fs := F.Fragments(x[cur.offset..], cur, st).fragments;
    var lo, mid, hi := F.CursorAt(fs, cur, i).offset, F.CursorAt(fs, cur, j - 1).offset, F.CursorAt(fs, cur, j).offset;
    var last := body.values[j - i - 1].entry;
    LastContent(x, cur, st, j - 1);
    assert last == fs[j - 1].entry;
    forall n | lo <= n < hi
      ensures BodyHas(body, st.sourceId, n, x[n])
    {
      if n < mid {
        var shorter := body.(values := body.values[..j - i - 1]);
        assert BodyHas(shorter, st.sourceId, n, x[n]);
        var k :| 0 <= k < |shorter.values| && Carries(shorter.values[k].entry, st.sourceId, n, x[n]);
        assert body.values[k] == shorter.values[k];
      } else {
        assert x[mid..hi][n - mid] == x[n];
        assert Carries(body.values[j - i - 1].entry, st.sourceId, n, x[n]);
      }
    }
  }

  /** The content of one fragment, as a stretch of the whole decoded stream. */
  lemma LastContent(x: Bytes, cur: F.Cursor, st: F.Settings, k: nat)
    requires st.Usable() && cur.offset <= |x|
    requires k < |F.Fragments(x[cur.offset..], cur, st).fragments|
    ensures var fs := F.Fragments(x[cur.offset..], cur, st).fragments;
      var mid, hi := F.CursorAt(fs, cur, k).offset, F.CursorAt(fs, cur, k + 1).offset;
      && mid < hi <= |x|
      && Content(fs[k].entry) == x[mid..hi]
      && fs[k].entry.offset == mid && fs[k].entry.sourceId == st.sourceId
  {
    hide F.Fragments, F.TakeStep, Content;
    F.FragmentAt(x[cur.offset..], cur, st, k);
  }

  /** Such a body carries nothing but the bytes of the content it was made from, each at its own offset. */
  lemma FragmentsCarryOnly(body: Body, x: Bytes, cur: F.Cursor, st: F.Settings, i: nat, n: nat, b: byte)
    requires st.Usable() && cur.offset <= |x|
    requires i + |body.values| <= |F.Fragments(x[cur.offset..], cur, st).fragments|
    requires var fs := F.Fragments(x[cur.offset..], cur, st).fragments;
      forall k :: 0 <= k < |body.values| ==> body.values[k].entry == fs[i + k].entry
    requires BodyHas(body, st.sourceId, n, b)
    ensures n < |x| && b == x[n]
  {
    hide F.Fragments, F.TakeStep, Content;
    var fs := F.Fragments(x[cur.offset..], cur, st).fragments;
    var k :| 0 <= k < |body.values| && Carries(body.values[k].entry, st.sourceId, n, b);
    LastContent(x, cur, st, i + k);
    var mid := F.CursorAt(fs, cur, i + k).offset;
    assert x[mid..F.CursorAt(fs, cur, i + k + 1).offset][n - mid] == x[n];
  }
}
