/**
 What the fragmenter yields, as a function of the bytes that remain and the cursor, and the properties its
 callers rely on: no byte is lost, every run can be resumed at any cursor, every entry fits its ceiling, and
 text is only cut between characters.
 */
module Fragments {
  import opened Utf8
  import opened LogEntry
  import Json

  /** Where a fragment starts: decoded offset, line number, and index of the fragment in its line. */
  datatype Cursor = Cursor(offset: nat, line: nat, fragment: nat)

  /**
   What stays the same during one run. `shrinkTarget` stands for the floating-point estimate of a payload
   length that would fit, given the present length and encoded size; nothing is assumed of it.
   */
  datatype Settings = Settings(
    filename: Bytes,
    sourceId: Bytes,
    activePrefix: bool,
    limit: nat,
    shrinkTarget: (nat, nat) -> int)
  {
    predicate Usable() {
      1 <= limit <= MAX_RAW_FRAGMENT
    }
  }

  datatype LogFragment = LogFragment(entry: Entry, next: Cursor)

  /** The fragments yielded, and whether the run then stopped because an entry could not be made to fit. */
  datatype Run = Run(fragments: seq<LogFragment>, stuck: bool)

  // ---- One step ------------------------------------------------------------------------------------

  /** The index of the first newline, or the length when there is none. */
  function NewlineIndex(s: Bytes): (i: nat)
    ensures i <= |s|
    ensures i < |s| ==> s[i] == NEWLINE
    ensures forall j :: 0 <= j < i ==> s[j] != NEWLINE
  {
    if s == [] || s[0] == NEWLINE then 0 else 1 + NewlineIndex(s[1..])
  }

  datatype Chunk = Chunk(content: Bytes, terminated: bool, eofFinal: bool)

  function Min(a: int, b: int): int {
    if a <= b then a else b
  }

  function Max(a: int, b: int): int {
    if a <= b then b else a
  }

  /** The next line, or as much of it as the limit allows, from the bytes that remain. */
  function NextChunk(rest: Bytes, limit: nat): (c: Chunk)
    requires limit >= 1
    ensures c.content <= rest && |c.content| <= Max(limit, 1)
    ensures c.terminated ==> |c.content| < |rest| && rest[|c.content|] == NEWLINE
    ensures c.content == [] && !c.terminated <==> rest == []
    ensures c.eofFinal ==> c.content == rest
  {
    var window := rest[..Min(|rest|, limit + 1)];
    var newline := NewlineIndex(window);
    if rest == [] then Chunk([], false, true)
    else if newline < |window| then Chunk(rest[..newline], true, false)
    else if |rest| > limit then Chunk(rest[..Max(1, SafeEnd(rest, limit))], false, false)
    else Chunk(rest, false, true)
  }

  /** The entry for the first `n` bytes of a chunk. */
  function EntryFor(c: Chunk, n: nat, cur: Cursor, st: Settings): Entry
    requires n <= |c.content|
  {
    var lineEnd := c.terminated || c.eofFinal;
    var final := lineEnd && n == |c.content|;
    BuildEntry(c.content[..n], st.filename, st.sourceId, cur.line, cur.fragment, final, c.terminated,
               final && !c.terminated && st.activePrefix, cur.offset)
  }

  /** The next, smaller payload length to try. */
  function NextLength(content: Bytes, n: nat, encoded: nat, st: Settings): (r: nat)
    requires 2 <= n <= |content|
    ensures 1 <= r < n
  {
    var target := Max(Min(st.shrinkTarget(n, encoded), n - 1), 1);
    Max(SafeEnd(content, target), 1)
  }

  /** The first payload length, at most `n`, whose entry fits; None when even one byte does not. */
  function ChosenLength(c: Chunk, n: nat, cur: Cursor, st: Settings): (r: Option<nat>)
    requires n <= |c.content|
    ensures r.Some? ==> r.value <= n && (n > 0 ==> r.value > 0)
    ensures r.Some? ==> |EncodeEntry(EntryFor(c, r.value, cur, st))| <= MAX_ENTRY_BYTES
    decreases n
  {
    var encoded := |EncodeEntry(EntryFor(c, n, cur, st))|;
    if encoded <= MAX_ENTRY_BYTES then Some(n)
    else if n <= 1 then None
    else ChosenLength(c, NextLength(c.content, n, encoded, st), cur, st)
  }

  /** The cursor after the first `n` bytes of a chunk have been emitted. */
  function Advance(c: Chunk, n: nat, cur: Cursor, st: Settings): Cursor
    requires n <= |c.content|
  {
    var final := (c.terminated || c.eofFinal) && n == |c.content|;
    if final && c.terminated then Cursor(cur.offset + n + 1, cur.line + 1, 0)
    else if final && st.activePrefix then Cursor(cur.offset + n, cur.line, cur.fragment + 1)
    else if final then Cursor(cur.offset + n, cur.line + 1, 0)
    else Cursor(cur.offset + n, cur.line, cur.fragment + 1)
  }

  datatype Step = Done | Stuck | Emit(fragment: LogFragment)

  function TakeStep(rest: Bytes, cur: Cursor, st: Settings): (s: Step)
    requires st.Usable()
    ensures s.Done? <==> rest == []
    ensures s.Emit? ==> cur.offset < s.fragment.next.offset <= cur.offset + |rest|
  {
    var c := NextChunk(rest, st.limit);
    if c.content == [] && !c.terminated then Done
    else
      var n := ChosenLength(c, |c.content|, cur, st);
      if n.None? then Stuck
      else Emit(LogFragment(EntryFor(c, n.value, cur, st), Advance(c, n.value, cur, st)))
  }

  /** Everything one run yields from the bytes that remain. */
  function Fragments(rest: Bytes, cur: Cursor, st: Settings): Run
    requires st.Usable()
    decreases |rest|
  {
    match TakeStep(rest, cur, st)
    case Done => Run([], false)
    case Stuck => Run([], true)
    case Emit(f) =>
      var tail := Fragments(rest[f.next.offset - cur.offset..], f.next, st);
      Run([f] + tail.fragments, tail.stuck)
  }

  // ---- No byte is lost -----------------------------------------------------------------------------

  /** The bytes a sequence of fragments stands for. */
  function Stream(fragments: seq<LogFragment>): Bytes {
    if fragments == [] then [] else Content(fragments[0].entry) + Stream(fragments[1..])
  }

  /** Each fragment starts where the one before it ended, at strictly increasing offsets. */
  predicate Chained(fragments: seq<LogFragment>, cur: Cursor) {
    fragments == [] ||
    (&& fragments[0].entry.offset == cur.offset
     && fragments[0].entry.lineNumber == cur.line
     && fragments[0].entry.fragmentIndex == cur.fragment
     && fragments[0].next.offset == cur.offset + |Content(fragments[0].entry)|
     && cur.offset < fragments[0].next.offset
     && Chained(fragments[1..], fragments[0].next))
  }

  /** One fragment holds exactly the bytes between its own offset and the next. */
  lemma StepContent(rest: Bytes, cur: Cursor, st: Settings)
    requires st.Usable() && TakeStep(rest, cur, st).Emit?
    ensures var f := TakeStep(rest, cur, st).fragment;
      && Content(f.entry) == rest[..f.next.offset - cur.offset]
      && f.entry.offset == cur.offset && f.entry.lineNumber == cur.line && f.entry.fragmentIndex == cur.fragment
      && f.entry.sourceId == st.sourceId
      && |EncodeEntry(f.entry)| <= MAX_ENTRY_BYTES
  {
    hide NextChunk, ChosenLength, EncodeEntry, Payload, BuildEntry;
    var c := NextChunk(rest, st.limit);
    var n := ChosenLength(c, |c.content|, cur, st).value;
    StepPayload(c, n, cur, st);
    assert c.content[..n] == rest[..n];
    if c.terminated {
      assert rest[..|c.content| + 1] == rest[..|c.content|] + [NEWLINE];
    }
  }

  lemma StepPayload(c: Chunk, n: nat, cur: Cursor, st: Settings)
    requires n <= |c.content|
    ensures Payload(EntryFor(c, n, cur, st)) == c.content[..n]
    ensures EntryFor(c, n, cur, st).terminated == (c.terminated && n == |c.content|)
    ensures EntryFor(c, n, cur, st).offset == cur.offset
    ensures EntryFor(c, n, cur, st).lineNumber == cur.line
    ensures EntryFor(c, n, cur, st).fragmentIndex == cur.fragment
    ensures EntryFor(c, n, cur, st).sourceId == st.sourceId
  {
    hide Payload, Valid, Replace;
    var final := (c.terminated || c.eofFinal) && n == |c.content|;
    PayloadRecovered(c.content[..n], st.filename, st.sourceId, cur.line, cur.fragment, final, c.terminated,
                     final && !c.terminated && st.activePrefix, cur.offset);
  }

  /**
   Lossless fragmentation: payloads and newlines put back together are a prefix of the decoded stream, all
   of it unless the run got stuck, and each fragment begins where the previous one ended.
   */
  lemma {:induction false} Lossless(rest: Bytes, cur: Cursor, st: Settings)
    requires st.Usable()
    ensures Chained(Fragments(rest, cur, st).fragments, cur)
    ensures Stream(Fragments(rest, cur, st).fragments) <= rest
    ensures !Fragments(rest, cur, st).stuck ==> Stream(Fragments(rest, cur, st).fragments) == rest
    decreases |rest|
  {
    hide TakeStep, Content, Chained, Stream, Fragments;
    StepBounds(rest, cur, st);
    if TakeStep(rest, cur, st).Emit? {
      var f := TakeStep(rest, cur, st).fragment;
      var k := f.next.offset - cur.offset;
      StepContent(rest, cur, st);
      Lossless(rest[k..], f.next, st);
      LosslessStep(rest, cur, st);
      PrefixJoin(rest, k, Stream(Fragments(rest[k..], f.next, st).fragments));
    } else {
      NothingLost(rest, cur, st);
    }
  }

  lemma PrefixJoin(rest: Bytes, k: nat, s: Bytes)
    requires k <= |rest| && s <= rest[k..]
    ensures rest[..k] + s <= rest
    ensures s == rest[k..] ==> rest[..k] + s == rest
  {
  }

  lemma NothingLost(rest: Bytes, cur: Cursor, st: Settings)
    requires st.Usable() && !TakeStep(rest, cur, st).Emit?
    ensures Chained(Fragments(rest, cur, st).fragments, cur)
    ensures Stream(Fragments(rest, cur, st).fragments) == []
    ensures !Fragments(rest, cur, st).stuck ==> rest == []
  {
    StepBounds(rest, cur, st);
  }

  lemma StepBounds(rest: Bytes, cur: Cursor, st: Settings)
    requires st.Usable()
    ensures TakeStep(rest, cur, st).Done? <==> rest == []
    ensures TakeStep(rest, cur, st).Emit? ==>
      cur.offset < TakeStep(rest, cur, st).fragment.next.offset <= cur.offset + |rest|
  {
  }

  lemma LosslessStep(rest: Bytes, cur: Cursor, st: Settings)
    requires st.Usable() && TakeStep(rest, cur, st).Emit?
    requires var f := TakeStep(rest, cur, st).fragment;
      && Content(f.entry) == rest[..f.next.offset - cur.offset]
      && f.entry.offset == cur.offset && f.entry.lineNumber == cur.line && f.entry.fragmentIndex == cur.fragment
      && Chained(Fragments(rest[f.next.offset - cur.offset..], f.next, st).fragments, f.next)
    ensures var f := TakeStep(rest, cur, st).fragment;
      var tail := Fragments(rest[f.next.offset - cur.offset..], f.next, st);
      && Chained(Fragments(rest, cur, st).fragments, cur)
      && Fragments(rest, cur, st).stuck == tail.stuck
      && Stream(Fragments(rest, cur, st).fragments)
         == rest[..f.next.offset - cur.offset] + Stream(tail.fragments)
  {
    hide TakeStep, Content;
    StepBounds(rest, cur, st);
    var f := TakeStep(rest, cur, st).fragment;
    var tail := Fragments(rest[f.next.offset - cur.offset..], f.next, st);
    var all := Fragments(rest, cur, st).fragments;
    assert all == [f] + tail.fragments;
    assert all[1..] == tail.fragments;
  }

  // ---- Resuming ------------------------------------------------------------------------------------

  /** The cursor at which the (k+1)-th fragment starts. */
  function CursorAt(fragments: seq<LogFragment>, cur: Cursor, k: nat): Cursor
    requires k <= |fragments|
  {
    if k == 0 then cur else fragments[k - 1].next
  }

  /**
   Resume determinism: a run restarted at any yielded cursor yields exactly the remaining fragments of the
   uninterrupted run, and ends the same way.
   */
  lemma {:induction false} ResumeAnywhere(rest: Bytes, cur: Cursor, st: Settings, k: nat)
    requires st.Usable() && k <= |Fragments(rest, cur, st).fragments|
    ensures var run := Fragments(rest, cur, st);
      var at := CursorAt(run.fragments, cur, k);
      && cur.offset <= at.offset <= cur.offset + |rest|
      && Fragments(rest[at.offset - cur.offset..], at, st) == Run(run.fragments[k..], run.stuck)
    decreases k
  {
    hide TakeStep, Fragments, Settings.Usable;
    var run := Fragments(rest, cur, st);
    if k == 0 {
      assert rest[0..] == rest && run.fragments[0..] == run.fragments;
    } else {
      RunStarts(rest, cur, st);
      UnfoldRun(rest, cur, st);
      var f := TakeStep(rest, cur, st).fragment;
      var tail := rest[f.next.offset - cur.offset..];
      ResumeAnywhere(tail, f.next, st, k - 1);
      var at := CursorAt(run.fragments, cur, k);
      assert at == CursorAt(Fragments(tail, f.next, st).fragments, f.next, k - 1);
      assert tail[at.offset - f.next.offset..] == rest[at.offset - cur.offset..];
      assert run.fragments[k..] == Fragments(tail, f.next, st).fragments[k - 1..];
    }
  }

  /** A run that yields anything starts with one step's fragment. */
  lemma RunStarts(rest: Bytes, cur: Cursor, st: Settings)
    requires st.Usable() && Fragments(rest, cur, st).fragments != []
    ensures TakeStep(rest, cur, st).Emit?
  {
    hide TakeStep;
  }

  /** After one step a run goes on as a run from there. */
  lemma UnfoldRun(rest: Bytes, cur: Cursor, st: Settings)
    requires st.Usable() && TakeStep(rest, cur, st).Emit?
    ensures var f := TakeStep(rest, cur, st).fragment;
      && cur.offset < f.next.offset <= cur.offset + |rest|
      && var tail := Fragments(rest[f.next.offset - cur.offset..], f.next, st);
        Fragments(rest, cur, st) == Run([f] + tail.fragments, tail.stuck)
  {
    hide TakeStep;
    StepBounds(rest, cur, st);
  }

  /** The k-th fragment of a run, located in the stream. */
  lemma FragmentAt(rest: Bytes, cur: Cursor, st: Settings, k: nat)
    requires st.Usable() && k < |Fragments(rest, cur, st).fragments|
    ensures var fs := Fragments(rest, cur, st).fragments;
      var at, next := CursorAt(fs, cur, k), fs[k].next;
      && cur.offset <= at.offset < next.offset <= cur.offset + |rest|
      && Content(fs[k].entry) == rest[at.offset - cur.offset..next.offset - cur.offset]
      && fs[k].entry.offset == at.offset
      && fs[k].entry.lineNumber == at.line && fs[k].entry.fragmentIndex == at.fragment
      && fs[k].entry.sourceId == st.sourceId
      && |EncodeEntry(fs[k].entry)| <= MAX_ENTRY_BYTES
  {
    hide TakeStep, Content, EncodeEntry, Fragments, Settings.Usable;
    ResumeAnywhere(rest, cur, st, k);
    var fs := Fragments(rest, cur, st).fragments;
    var at := CursorAt(fs, cur, k);
    var here := rest[at.offset - cur.offset..];
    FirstFragment(here, at, st);
    StepBounds(here, at, st);
    StepContent(here, at, st);
    assert fs[k] == fs[k..][0];
    SliceOfTail(rest, at.offset - cur.offset, fs[k].next.offset - at.offset);
  }

  lemma SliceOfTail(s: Bytes, i: nat, n: nat)
    requires i <= |s| && n <= |s[i..]|
    ensures s[i..][..n] == s[i..i + n]
  {
  }

  lemma FirstFragment(rest: Bytes, cur: Cursor, st: Settings)
    requires st.Usable() && Fragments(rest, cur, st).fragments != []
    ensures TakeStep(rest, cur, st).Emit?
    ensures Fragments(rest, cur, st).fragments[0] == TakeStep(rest, cur, st).fragment
  {
    hide TakeStep;
  }

  /** Offsets strictly increase along a run. */
  lemma {:induction false} OffsetsIncrease(rest: Bytes, cur: Cursor, st: Settings, k: nat)
    requires st.Usable() && k <= |Fragments(rest, cur, st).fragments|
    ensures var fs := Fragments(rest, cur, st).fragments;
      cur.offset + k <= CursorAt(fs, cur, k).offset <= cur.offset + |rest|
    decreases k
  {
    hide Fragments, Content, EncodeEntry;
    if k > 0 {
      OffsetsIncrease(rest, cur, st, k - 1);
      FragmentAt(rest, cur, st, k - 1);
    }
  }

  lemma StepSize(rest: Bytes, cur: Cursor, st: Settings)
    requires st.Usable() && TakeStep(rest, cur, st).Emit?
    ensures TakeStep(rest, cur, st).fragment.next.offset - cur.offset <= st.limit + 1
  {
    hide ChosenLength, EntryFor, SafeEnd;
  }

  /** A fragment takes at most its limit and one newline from the stream. */
  lemma FragmentSize(rest: Bytes, cur: Cursor, st: Settings, k: nat)
    requires st.Usable() && k < |Fragments(rest, cur, st).fragments|
    ensures var fs := Fragments(rest, cur, st).fragments;
      fs[k].next.offset - CursorAt(fs, cur, k).offset <= st.limit + 1
  {
    hide TakeStep, Fragments;
    ResumeAnywhere(rest, cur, st, k);
    var fs := Fragments(rest, cur, st).fragments;
    var at := CursorAt(fs, cur, k);
    var here := rest[at.offset - cur.offset..];
    FirstFragment(here, at, st);
    StepSize(here, at, st);
    assert fs[k] == fs[k..][0];
  }

  lemma StepLine(rest: Bytes, cur: Cursor, st: Settings)
    requires st.Usable() && TakeStep(rest, cur, st).Emit?
    ensures TakeStep(rest, cur, st).fragment.next.line >= cur.line
  {
    hide NextChunk, ChosenLength, EntryFor;
  }

  /** Line numbers never fall back to zero. */
  lemma {:induction false} LinesArePositive(rest: Bytes, cur: Cursor, st: Settings, k: nat)
    requires st.Usable() && k <= |Fragments(rest, cur, st).fragments| && cur.line >= 1
    ensures CursorAt(Fragments(rest, cur, st).fragments, cur, k).line >= 1
    decreases k
  {
    hide TakeStep;
    if k > 0 {
      var f := TakeStep(rest, cur, st).fragment;
      StepBounds(rest, cur, st);
      StepLine(rest, cur, st);
      assert Fragments(rest, cur, st).fragments[1..]
          == Fragments(rest[f.next.offset - cur.offset..], f.next, st).fragments;
      LinesArePositive(rest[f.next.offset - cur.offset..], f.next, st, k - 1);
    }
  }

  /** Lines and fragments counted so far are no more than the bytes they took. */
  predicate CursorOk(cur: Cursor) {
    cur.line <= cur.offset + 1 && cur.fragment <= cur.offset
  }

  lemma StepCounters(rest: Bytes, cur: Cursor, st: Settings)
    requires st.Usable() && TakeStep(rest, cur, st).Emit? && CursorOk(cur)
    ensures CursorOk(TakeStep(rest, cur, st).fragment.next)
  {
    hide NextChunk, ChosenLength, EntryFor;
  }

  lemma {:induction false} CursorsOk(rest: Bytes, cur: Cursor, st: Settings, k: nat)
    requires st.Usable() && k <= |Fragments(rest, cur, st).fragments| && CursorOk(cur)
    ensures CursorOk(CursorAt(Fragments(rest, cur, st).fragments, cur, k))
    decreases k
  {
    hide TakeStep, Fragments, Settings.Usable, CursorOk;
    if k > 0 {
      RunStarts(rest, cur, st);
      UnfoldRun(rest, cur, st);
      StepCounters(rest, cur, st);
      var f := TakeStep(rest, cur, st).fragment;
      CursorsOk(rest[f.next.offset - cur.offset..], f.next, st, k - 1);
    }
  }

  /** A later cursor is further on. */
  lemma {:induction false} OffsetsAhead(rest: Bytes, cur: Cursor, st: Settings, j: nat, k: nat)
    requires st.Usable() && j <= k <= |Fragments(rest, cur, st).fragments|
    ensures var fs := Fragments(rest, cur, st).fragments;
      CursorAt(fs, cur, j).offset + (k - j) <= CursorAt(fs, cur, k).offset
    decreases k
  {
    hide Fragments, Content, EncodeEntry;
    if j < k {
      OffsetsAhead(rest, cur, st, j, k - 1);
      FragmentAt(rest, cur, st, k - 1);
    }
  }

  /** A run that was not stopped ends exactly where the bytes end. */
  lemma EndsAtEnd(rest: Bytes, cur: Cursor, st: Settings)
    requires st.Usable() && !Fragments(rest, cur, st).stuck
    ensures var fs := Fragments(rest, cur, st).fragments;
      CursorAt(fs, cur, |fs|).offset == cur.offset + |rest|
  {
    hide TakeStep;
    var run := Fragments(rest, cur, st);
    var at := CursorAt(run.fragments, cur, |run.fragments|);
    ResumeAnywhere(rest, cur, st, |run.fragments|);
    var tail := rest[at.offset - cur.offset..];
    assert Fragments(tail, at, st) == Run([], false);
    StepBounds(tail, at, st);
  }

  // ---- Text is cut between characters --------------------------------------------------------------

  /** A newline in well-formed text stands on character boundaries. */
  lemma {:induction false} NewlineOnBoundary(s: Bytes, i: nat)
    requires Valid(s) && i < |s| && s[i] == NEWLINE
    ensures Valid(s[..i]) && Valid(s[i + 1..])
    decreases |s|
  {
    hide CharLength;
    var n := CharLength(s);
    if i < n {
      CharShape(s);
      assert i == 0;
      SingleByte(s);
    } else {
      NewlineOnBoundary(s[n..], i - n);
      ValidChar(s);
      ValidConcat(s[..n], s[n..][..i - n]);
      assert s[..i] == s[..n] + s[n..][..i - n];
      assert s[i + 1..] == s[n..][i - n + 1..];
    }
  }

  lemma SingleByte(s: Bytes)
    requires s != [] && s[0] < 0x80
    ensures CharLength(s) == 1
  {
  }

  /** With room for four bytes, a chunk of well-formed text is well formed, and so is what follows it. */
  lemma ChunkOnBoundary(rest: Bytes, limit: nat)
    requires Valid(rest) && limit >= 4
    ensures var c := NextChunk(rest, limit);
      && Valid(c.content)
      && Valid(rest[|c.content| + (if c.terminated then 1 else 0)..])
  {
    hide Valid, SafeEnd;
    var c := NextChunk(rest, limit);
    assert Valid(rest) && ValidEmpty();
    if c.terminated {
      NewlineOnBoundary(rest, |c.content|);
      assert c.content == rest[..|c.content|];
    } else if c.eofFinal {
      assert c.content == rest || rest == [];
      assert rest[|c.content|..] == [];
    } else {
      SafeEndOnBoundary(rest, limit);
    }
  }

  predicate ValidEmpty()
    ensures ValidEmpty() && Valid([])
  {
    true
  }

  /** File name and source id short enough that no entry's metadata exceeds ten KiB. */
  predicate SmallNames(st: Settings) {
    |st.filename| + |st.sourceId| <= 1600
  }

  /** Counters that stay below twenty digits for the whole run. */
  predicate SmallCounters(cur: Cursor, remaining: nat) {
    var bound := Json.PowerOfTen(20);
    cur.offset + remaining < bound && cur.line + remaining < bound && cur.fragment + remaining < bound
  }

  /** With short names the whole chunk is emitted: the shrink loop does nothing. */
  lemma WholeChunkFits(c: Chunk, cur: Cursor, st: Settings)
    requires st.Usable() && SmallNames(st) && SmallCounters(cur, 0) && |c.content| <= MAX_RAW_FRAGMENT
    ensures ChosenLength(c, |c.content|, cur, st) == Some(|c.content|)
  {
    hide EncodeEntry, Metadata, Valid, Replace;
    var n := |c.content|;
    var final := c.terminated || c.eofFinal;
    MetadataLength(EntryFor(c, n, cur, st));
    assert c.content[..n] == c.content;
    SmallMetadataFits(c.content, st.filename, st.sourceId, cur.line, cur.fragment, final, c.terminated,
                      final && !c.terminated && st.activePrefix, cur.offset);
  }

  lemma SmallStep(rest: Bytes, cur: Cursor, st: Settings)
    requires st.Usable() && SmallNames(st) && SmallCounters(cur, |rest|) && rest != []
    ensures TakeStep(rest, cur, st).Emit?
    ensures var f := TakeStep(rest, cur, st).fragment;
      && cur.offset < f.next.offset <= cur.offset + |rest|
      && SmallCounters(f.next, |rest| - (f.next.offset - cur.offset))
  {
    hide ChosenLength, Replace, EncodeEntry, Metadata, Json.PowerOfTen;
    var c := NextChunk(rest, st.limit);
    assert |c.content| <= st.limit;
    hide NextChunk;
    WholeChunkFits(c, cur, st);
  }

  /** With short names the run never stops early, whatever the bytes. */
  lemma {:induction false} NeverStuck(rest: Bytes, cur: Cursor, st: Settings)
    requires st.Usable() && SmallNames(st) && SmallCounters(cur, |rest|)
    ensures !Fragments(rest, cur, st).stuck
    decreases |rest|
  {
    hide TakeStep, SmallCounters;
    StepBounds(rest, cur, st);
    if rest != [] {
      SmallStep(rest, cur, st);
      var f := TakeStep(rest, cur, st).fragment;
      NeverStuck(rest[f.next.offset - cur.offset..], f.next, st);
    }
  }

  /**
   Well-formed text with short names: the run never stops early, and no entry needs the base64 fallback,
   that is, no fragment cuts a character.
   */
  lemma {:induction false} TextIsNeverCut(rest: Bytes, cur: Cursor, st: Settings)
    requires st.Usable() && st.limit >= 4 && SmallNames(st) && SmallCounters(cur, |rest|)
    requires Valid(rest)
    ensures !Fragments(rest, cur, st).stuck
    ensures forall f <- Fragments(rest, cur, st).fragments :: f.entry.raw.None? && Valid(f.entry.text)
    decreases |rest|
  {
    hide TakeStep, Valid;
    StepBounds(rest, cur, st);
    if rest != [] {
      TextStep(rest, cur, st);
      var f := TakeStep(rest, cur, st).fragment;
      TextIsNeverCut(rest[f.next.offset - cur.offset..], f.next, st);
    }
  }

  lemma TextStep(rest: Bytes, cur: Cursor, st: Settings)
    requires st.Usable() && st.limit >= 4 && SmallNames(st) && SmallCounters(cur, |rest|)
    requires Valid(rest) && rest != []
    ensures TakeStep(rest, cur, st).Emit?
    ensures var f := TakeStep(rest, cur, st).fragment;
      && cur.offset < f.next.offset <= cur.offset + |rest|
      && Valid(rest[f.next.offset - cur.offset..])
      && SmallCounters(f.next, |rest| - (f.next.offset - cur.offset))
      && f.entry.raw.None? && Valid(f.entry.text)
  {
    hide Valid, NextChunk, ChosenLength, Replace, EncodeEntry, Metadata, SafeEnd, Json.PowerOfTen;
    var c := NextChunk(rest, st.limit);
    ChunkOnBoundary(rest, st.limit);
    WholeChunkFits(c, cur, st);
    assert c.content[..|c.content|] == c.content;
    ReplaceIsIdentityOnValid(c.content);
  }

  /** The run stops early only on an entry whose metadata alone is over the ceiling: at most one payload byte. */
  lemma {:induction false} StuckOnlyOnMetadata(c: Chunk, n: nat, cur: Cursor, st: Settings)
    requires n <= |c.content| && ChosenLength(c, n, cur, st).None?
    ensures exists m: nat :: m <= 1 && m <= n && |EncodeEntry(EntryFor(c, m, cur, st))| > MAX_ENTRY_BYTES
    decreases n
  {
    hide EncodeEntry, EntryFor, SafeEnd;
    if n > 1 {
      var m := NextLength(c.content, n, |EncodeEntry(EntryFor(c, n, cur, st))|, st);
      StuckOnlyOnMetadata(c, m, cur, st);
    }
  }
}
