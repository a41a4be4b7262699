/**
 The stateful readers: the bounded raw reader, the decoded stream with its look-ahead, the line buffer, and
 the fragmenter's loop, each proved against the bytes that remain to be served.
 */
module StreamReader {
  import opened Utf8
  import opened LogEntry
  import F = Fragments

  /** Largest raw byte budget requested in one fetch. */
  const MAX_FETCH_BYTES: nat := 32 * 1024 * 1024
  const READ_CHUNK: nat := 1024 * 1024

  datatype ReadResult = Data(bytes: Bytes) | Failed

  /** The first `n` bytes, or all of them when there are fewer. */
  function Take(s: Bytes, n: nat): Bytes {
    if n <= |s| then s[..n] else s
  }

  function Drop(s: Bytes, n: nat): Bytes {
    if n <= |s| then s[n..] else []
  }

  // ---- Raw bytes -----------------------------------------------------------------------------------

  /**
   A window of a source's raw bytes, fetched in bounded ranges. `recorded` is the content whose digest the
   caller recorded for a whole captured blob; digests are compared as the contents they determine. With
   `reliable` no transfer fails.
   */
  class RemoteLogReader {
    const window: Bytes
    const recorded: Option<Bytes>
    const reliable: bool
    var delivered: nat
    var fetchRemaining: nat
    var atEof: bool

    ghost predicate Valid()
      reads this
    {
      && delivered + fetchRemaining <= |window|
      && (atEof ==> delivered == |window| && fetchRemaining == 0)
      && (delivered == |window| ==> atEof || delivered == 0)
    }

    ghost function Remaining(): Bytes
      reads this
      requires Valid()
    {
      window[delivered..]
    }

    /** Nothing keeps this reader from serving its whole window. */
    predicate Sound() {
      reliable && (recorded.Some? ==> recorded.value == window)
    }

    constructor (window: Bytes, recorded: Option<Bytes>, reliable: bool)
      ensures Valid() && Remaining() == window
      ensures this.window == window && this.recorded == recorded && this.reliable == reliable
    {
      this.window, this.recorded, this.reliable := window, recorded, reliable;
      delivered := 0;
      fetchRemaining := 0;
      atEof := false;
    }

    /** Open the next range; `ok` is false when the transport fails. */
    method OpenFetch() returns (ok: bool)
      requires Valid() && fetchRemaining == 0 && !atEof
      modifies this`fetchRemaining, this`atEof
      ensures Valid()
      ensures ok ==> atEof == (delivered == |window|)
      ensures ok && !atEof ==> 0 < fetchRemaining <= MAX_FETCH_BYTES
      ensures reliable ==> ok
    {
      var remaining := |window| - delivered;
      if remaining <= 0 {
        atEof := true;
        return true;
      }
      var transferred: bool := *;
      ok := reliable || transferred;
      if ok {
        fetchRemaining := F.Min(MAX_FETCH_BYTES, remaining);
      }
    }

    /**
     Read up to `n` bytes across as many ranges as it takes. A read that does not fail returns exactly the
     next bytes of the window, fewer than `n` only at its end, and reaching the end of a recorded blob
     without failing proves that the served bytes are the recorded ones.
     */
    method Read(n: nat) returns (r: ReadResult)
      requires Valid()
      modifies this
      ensures Valid()
      ensures r.Data? ==> r.bytes == Take(old(Remaining()), n) && Remaining() == Drop(old(Remaining()), n)
      ensures r.Data? && atEof && !old(atEof) && recorded.Some? && delivered > old(delivered) ==>
        window == recorded.value
      ensures Sound() ==> r.Data?
    {
      var start := delivered;
      while delivered - start < n
        invariant Valid() && start <= delivered <= start + n
        invariant delivered > start && atEof && !old(atEof) && recorded.Some? ==> window == recorded.value
        invariant old(atEof) ==> atEof && delivered == start
        decreases start + n - delivered
      {
        if fetchRemaining <= 0 {
          if atEof {
            break;
          }
          var ok := OpenFetch();
          if !ok {
            return Failed;
          }
          if atEof || fetchRemaining <= 0 {
            break;
          }
        }
        var want := F.Min(F.Min(n - (delivered - start), fetchRemaining), READ_CHUNK);
        var got: int := *;
        if got <= 0 || got > want {
          if !reliable {
            return Failed;
          }
          got := want;
        }
        fetchRemaining := fetchRemaining - got;
        delivered := delivered + got;
        if fetchRemaining == 0 && delivered >= |window| {
          atEof := true;
          if recorded.Some? && window != recorded.value {
            return Failed;
          }
        }
      }
      r := Data(window[start..delivered]);
    }
  }

  // ---- Decoded bytes -------------------------------------------------------------------------------

  function Flatten(outputs: seq<Bytes>): Bytes {
    if outputs == [] then [] else outputs[0] + Flatten(outputs[1..])
  }

  lemma FlattenSingle(x: Bytes)
    ensures Flatten([x]) == x
  {
    assert [x][1..] == [];
  }

  /**
   The concatenated-frame decompressor, as the outputs of its coming bounded steps. A corrupt or truncated
   stream fails where its outputs end.
   */
  class FrameDecoder {
    var outputs: seq<Bytes>
    const corrupt: bool

    constructor (outputs: seq<Bytes>, corrupt: bool)
      ensures this.outputs == outputs && this.corrupt == corrupt
    {
      this.outputs := outputs;
      this.corrupt := corrupt;
    }
  }

  /** The decoded byte stream: bytes decoded but not yet delivered, then those still to be decoded. */
  class DecodedLogReader {
    const plain: bool
    const raw: RemoteLogReader
    const frames: FrameDecoder
    const originOffset: nat
    var pending: Bytes
    var decodedEof: bool
    var decodedBytes: nat

    ghost predicate Valid()
      reads this, raw, frames
    {
      && raw.Valid()
      && |pending| <= decodedBytes
      && (decodedEof ==> Undecoded() == [] && (plain || !frames.corrupt))
    }

    /** Neither transfers nor the frames themselves make this reader fail. */
    predicate Sound() {
      if plain then raw.Sound() else !frames.corrupt
    }

    ghost function Undecoded(): Bytes
      reads this, raw, frames
      requires raw.Valid()
    {
      if plain then raw.Remaining() else Flatten(frames.outputs)
    }

    /** The bytes this reader will still serve if decoding does not fail. */
    ghost function Rest(): Bytes
      reads this, raw, frames
      requires raw.Valid()
    {
      pending + Undecoded()
    }

    /** The absolute decoded offset of the next byte to deliver. */
    function Position(): int
      reads this
    {
      originOffset + decodedBytes - |pending|
    }

    constructor (plain: bool, raw: RemoteLogReader, frames: FrameDecoder, originOffset: nat)
      requires raw.Valid()
      ensures Valid() && fresh(this)
      ensures this.plain == plain && this.raw == raw && this.frames == frames && this.originOffset == originOffset
      ensures Rest() == (if plain then raw.Remaining() else Flatten(frames.outputs)) && Position() == originOffset
    {
      this.plain, this.raw, this.frames, this.originOffset := plain, raw, frames, originOffset;
      pending, decodedEof, decodedBytes := [], false, 0;
    }

    method Emit(data: Bytes)
      requires |pending| <= decodedBytes
      modifies this`pending, this`decodedBytes
      ensures pending == old(pending) + data && decodedBytes == old(decodedBytes) + |data|
    {
      pending := pending + data;
      decodedBytes := decodedBytes + |data|;
    }

    /** One bounded decoding step; false at the end of the stream. */
    method PullFrame() returns (ok: bool, more: bool)
      requires Valid() && !plain && !decodedEof
      modifies this, frames
      ensures Valid() && Position() == old(Position())
      ensures ok ==> Rest() == old(Rest()) && more == !decodedEof
      ensures ok && more ==> |frames.outputs| < |old(frames.outputs)|
      ensures Sound() ==> ok
    {
      if frames.outputs == [] {
        if frames.corrupt {
          return false, false;
        }
        decodedEof := true;
        return true, false;
      }
      var output := frames.outputs[0];
      frames.outputs := frames.outputs[1..];
      Emit(output);
      assert Rest() == old(pending) + (output + Undecoded());
      return true, true;
    }

    /** One read of a plain source; false at the end of the stream. */
    method PullPlain(need: nat) returns (ok: bool, more: bool)
      requires Valid() && plain && !decodedEof && need > 0
      modifies this, raw
      ensures Valid() && Position() == old(Position())
      ensures ok ==> Rest() == old(Rest()) && more == !decodedEof
      ensures ok && more ==> |pending| > |old(pending)|
      ensures Sound() ==> ok
    {
      ghost var before := raw.Remaining();
      var data := raw.Read(need);
      if data.Failed? {
        return false, false;
      }
      TakeThenDrop(before, need);
      if data.bytes == [] {
        decodedEof := true;
        return true, false;
      }
      Emit(data.bytes);
      assert Rest() == old(pending) + (data.bytes + raw.Remaining());
      return true, true;
    }

    /** Decode until `want` bytes are pending or the stream ends. */
    method Produce(want: nat) returns (ok: bool)
      requires Valid()
      modifies this, raw, frames
      ensures Valid() && Position() == old(Position())
      ensures ok ==> Rest() == old(Rest())
      ensures ok ==> |pending| >= want || decodedEof
      ensures Sound() ==> ok
    {
      while |pending| < want && !decodedEof
        invariant Valid() && Position() == old(Position()) && Rest() == old(Rest())
        decreases if plain then want - |pending| else |frames.outputs|
      {
        var more;
        if plain {
          ok, more := PullPlain(want - |pending|);
        } else {
          ok, more := PullFrame();
        }
        if !ok {
          return false;
        }
        if !more {
          break;
        }
      }
      ok := true;
    }

    /**
     Read up to `size` bytes; fewer only at the end of the stream. A negative size reads everything. A read
     that does not fail serves exactly the next bytes of the stream.
     */
    method Read(size: int) returns (r: ReadResult)
      requires Valid()
      modifies this, raw, frames
      ensures Valid()
      ensures r.Data? ==>
        && r.bytes == (if size < 0 then old(Rest()) else Take(old(Rest()), size))
        && Rest() == (if size < 0 then [] else Drop(old(Rest()), size))
        && Position() == old(Position()) + |r.bytes|
        && (size < 0 || |r.bytes| < size ==> decodedEof && pending == [])
      ensures Sound() ==> r.Data?
    {
      if size < 0 {
        while !decodedEof
          invariant Valid() && Position() == old(Position()) && Rest() == old(Rest())
          decreases if decodedEof then 0 else 1, |Rest()| - |pending|
        {
          var ok := Produce(|pending| + 1);
          if !ok {
            return Failed;
          }
        }
        r := Data(pending);
        pending := [];
        return;
      }
      if size == 0 {
        return Data([]);
      }
      var ok := Produce(size);
      if !ok {
        return Failed;
      }
      ghost var rest := Rest();
      r := Data(Take(pending, size));
      TakeDrop(pending, Undecoded(), size);
      pending := Drop(pending, size);
    }
  }

  lemma TakeThenDrop(s: Bytes, n: nat)
    ensures Take(s, n) + Drop(s, n) == s
    ensures |Take(s, n)| <= n
    ensures n > 0 && Take(s, n) == [] ==> s == [] && Drop(s, n) == []
  {
  }

  lemma TakeDrop(pending: Bytes, undecoded: Bytes, size: nat)
    requires |pending| >= size || undecoded == []
    ensures Take(pending, size) == Take(pending + undecoded, size)
    ensures Drop(pending, size) + undecoded == Drop(pending + undecoded, size)
  {
  }

  // ---- Lines and fragments -------------------------------------------------------------------------

  /** Bounded look-ahead over a decoded stream, with push-back; it never holds a whole long line. */
  class LineBuffer {
    const decoded: DecodedLogReader
    const max: nat
    var buf: Bytes
    var eof: bool

    ghost predicate Valid()
      reads this, decoded, decoded.raw, decoded.frames
    {
      decoded.Valid() && max >= 1 && (eof ==> decoded.Rest() == [] && decoded.decodedEof)
    }

    /** The bytes not yet handed out, pushed-back ones first. */
    ghost function Remaining(): Bytes
      reads this, decoded, decoded.raw, decoded.frames
      requires Valid()
    {
      buf + decoded.Rest()
    }

    constructor (decoded: DecodedLogReader, max: nat)
      requires decoded.Valid() && max >= 1
      ensures Valid() && fresh(this) && this.decoded == decoded && this.max == max
      ensures Remaining() == decoded.Rest()
    {
      this.decoded, this.max := decoded, max;
      buf, eof := [], false;
    }

    method PushFront(data: Bytes)
      requires Valid()
      modifies this`buf
      ensures Valid() && Remaining() == data + old(Remaining())
    {
      assert data + (buf + decoded.Rest()) == (data + buf) + decoded.Rest();
      buf := data + buf;
    }

    method Fill(want: nat) returns (ok: bool)
      requires Valid()
      modifies this`buf, this`eof, decoded, decoded.raw, decoded.frames
      ensures Valid()
      ensures ok ==> Remaining() == old(Remaining())
      ensures ok ==> |buf| >= want || (decoded.Rest() == [] && decoded.decodedEof)
      ensures decoded.Sound() ==> ok
    {
      hide Take, Drop, RemoteLogReader.Valid, DecodedLogReader.Undecoded, DecodedLogReader.Rest, DecodedLogReader.Sound;
      while |buf| < want && !eof
        invariant Valid() && Remaining() == old(Remaining())
        decreases if eof then 0 else 1, want - |buf|
      {
        ghost var rest := decoded.Rest();
        var chunk := decoded.Read(want - |buf|);
        if chunk.Failed? {
          return false;
        }
        TakeThenDrop(rest, want - |buf|);
        if chunk.bytes == [] {
          eof := true;
          break;
        }
        assert buf + rest == (buf + chunk.bytes) + decoded.Rest();
        buf := buf + chunk.bytes;
      }
      ok := true;
    }

    /** The next chunk, which depends only on the bytes that remain and not on how far the look-ahead got. */
    method NextChunk() returns (ok: bool, c: F.Chunk)
      requires Valid()
      modifies this`buf, this`eof, decoded, decoded.raw, decoded.frames
      ensures Valid()
      ensures ok ==> c == F.NextChunk(old(Remaining()), max)
      ensures ok ==> Remaining() == old(Remaining())[|c.content| + (if c.terminated then 1 else 0)..]
      ensures ok && c.content == [] && !c.terminated ==> decoded.decodedEof
      ensures decoded.Sound() ==> ok
    {
      hide F.NextChunk, RemoteLogReader.Valid, DecodedLogReader.Undecoded, DecodedLogReader.Rest,
           DecodedLogReader.Sound;
      ok := Fill(max + 1);
      if !ok {
        return false, F.Chunk([], false, true);
      }
      LookAhead(buf, decoded.Rest(), max);
      c := CutChunk(buf, max);
      EmptyChunk(buf, max);
      var consumed := |c.content| + (if c.terminated then 1 else 0);
      DropFront(buf, decoded.Rest(), consumed);
      buf := buf[consumed..];
    }
  }

  /** Only an empty buffer yields an empty chunk. */
  lemma EmptyChunk(buf: Bytes, max: nat)
    requires max >= 1
    ensures F.NextChunk(buf, max).content == [] && !F.NextChunk(buf, max).terminated ==> buf == []
    ensures |F.NextChunk(buf, max).content| + (if F.NextChunk(buf, max).terminated then 1 else 0) <= |buf|
  {
  }

  lemma DropFront(s: Bytes, t: Bytes, n: nat)
    requires n <= |s|
    ensures (s + t)[n..] == s[n..] + t
  {
  }

  /** The chunk at the front of a filled buffer. */
  method CutChunk(buf: Bytes, max: nat) returns (c: F.Chunk)
    requires max >= 1
    ensures c == F.NextChunk(buf, max)
  {
    if buf == [] {
      return F.Chunk([], false, true);
    }
    var newline := FindNewline(buf, F.Min(|buf|, max + 1));
    if newline != -1 {
      return F.Chunk(buf[..newline], true, false);
    }
    if |buf| > max {
      var end := ComputeSafeEnd(buf, max);
      if end < 1 {
        end := 1;
      }
      return F.Chunk(buf[..end], false, false);
    }
    return F.Chunk(buf, false, true);
  }

  /** `buf.find(newline, 0, end)`. */
  method FindNewline(buf: Bytes, end: nat) returns (i: int)
    requires end <= |buf|
    ensures i == (if F.NewlineIndex(buf[..end]) < end then F.NewlineIndex(buf[..end]) else -1)
  {
    for k := 0 to end
      invariant forall j :: 0 <= j < k ==> buf[j] != NEWLINE
    {
      if buf[k] == NEWLINE {
        assert buf[..end][k] == NEWLINE;
        assert forall j :: 0 <= j < k ==> buf[..end][j] != NEWLINE;
        return k;
      }
    }
    i := -1;
  }

  /** Enough look-ahead determines the next chunk. */
  lemma LookAhead(buf: Bytes, tail: Bytes, max: nat)
    requires max >= 1 && (|buf| >= max + 1 || tail == [])
    ensures F.NextChunk(buf + tail, max) == F.NextChunk(buf, max)
  {
    var rest := buf + tail;
    if tail == [] {
      assert rest == buf;
    } else {
      assert rest[..max + 1] == buf[..max + 1];
      assert rest[..max] == buf[..max];
      SafeEndPrefix(buf, rest, max);
    }
  }

  datatype Failure = BadLimit | OffsetPassed | Truncated | ReadFailed

  /** How a fragmenting run ended. */
  datatype End = Finished | EncodingError | Stopped(failure: Failure)

  /** Read and discard up to the resume offset. */
  method SkipTo(decoded: DecodedLogReader, count: nat) returns (failure: Option<Failure>)
    requires decoded.Valid()
    modifies decoded, decoded.raw, decoded.frames
    ensures decoded.Valid()
    ensures failure.None? ==> count <= |old(decoded.Rest())| && decoded.Rest() == old(decoded.Rest())[count..]
    ensures failure == Some(Truncated) ==> |old(decoded.Rest())| < count
    ensures failure.Some? ==> failure.value in {Truncated, ReadFailed}
    ensures decoded.Sound() ==> failure != Some(ReadFailed)
  {
    hide Take, Drop;
    var skip := count;
    ghost var before := decoded.Rest();
    while skip > 0
      invariant decoded.Valid() && 0 <= skip <= count <= skip + |before|
      invariant decoded.Rest() == before[count - skip..]
    {
      var chunk := decoded.Read(F.Min(skip, READ_CHUNK));
      if chunk.Failed? {
        return Some(ReadFailed);
      }
      Further(before, count - skip, F.Min(skip, READ_CHUNK));
      if chunk.bytes == [] {
        return Some(Truncated);
      }
      skip := skip - |chunk.bytes|;
    }
    return None;
  }

  /** What a read of the rest takes and leaves, within the whole. */
  lemma Further(s: Bytes, at: nat, n: nat)
    requires at <= |s|
    ensures |Take(s[at..], n)| <= n && at + |Take(s[at..], n)| <= |s|
    ensures Drop(s[at..], n) == s[at + |Take(s[at..], n)|..]
    ensures n > 0 && Take(s[at..], n) == [] ==> at == |s|
  {
  }

  /** The shrink loop: the first payload length whose entry fits, or None when one byte does not. */
  method ChooseLength(c: F.Chunk, cur: F.Cursor, st: F.Settings) returns (chosen: Option<nat>)
    ensures chosen == F.ChosenLength(c, |c.content|, cur, st)
  {
    hide F.EntryFor, EncodeEntry;
    var length: nat := |c.content|;
    while true
      invariant length <= |c.content|
      invariant F.ChosenLength(c, length, cur, st) == F.ChosenLength(c, |c.content|, cur, st)
      decreases length
    {
      var encoded := EncodeEntry(F.EntryFor(c, length, cur, st));
      if |encoded| <= MAX_ENTRY_BYTES {
        return Some(length);
      }
      if length <= 1 {
        return None;
      }
      var target := st.shrinkTarget(length, |encoded|);
      if target >= length {
        target := length - 1;
      }
      if target < 1 {
        target := 1;
      }
      var shorter := ComputeSafeEnd(c.content, target);
      if shorter < 1 {
        shorter := 1;
      }
      assert shorter == F.NextLength(c.content, length, |encoded|, st);
      length := shorter;
    }
  }

  /** What the run has yielded so far, followed by what the remaining bytes yield, is the whole run. */
  ghost predicate SoFar(whole: F.Run, out: seq<F.LogFragment>, rest: Bytes, cur: F.Cursor, st: F.Settings)
    requires st.Usable()
  {
    var tail := F.Fragments(rest, cur, st);
    whole == F.Run(out + tail.fragments, tail.stuck)
  }

  lemma SoFarStep(whole: F.Run, out: seq<F.LogFragment>, rest: Bytes, cur: F.Cursor, st: F.Settings)
    requires st.Usable() && SoFar(whole, out, rest, cur, st)
    ensures match F.TakeStep(rest, cur, st)
      case Done => whole == F.Run(out, false)
      case Stuck => whole == F.Run(out, true)
      case Emit(f) =>
        && cur.offset < f.next.offset <= cur.offset + |rest|
        && SoFar(whole, out + [f], rest[f.next.offset - cur.offset..], f.next, st)
    ensures out <= whole.fragments
  {
    hide F.TakeStep;
    var step := F.TakeStep(rest, cur, st);
    if step.Emit? {
      F.UnfoldRun(rest, cur, st);
      var tail := F.Fragments(rest[step.fragment.next.offset - cur.offset..], step.fragment.next, st);
      assert out + ([step.fragment] + tail.fragments) == (out + [step.fragment]) + tail.fragments;
    }
  }

  /** One step of the loop: the next fragment, with what it did not use pushed back. */
  method NextFragment(buffer: LineBuffer, cur: F.Cursor, st: F.Settings) returns (ok: bool, step: F.Step)
    requires buffer.Valid() && st.Usable() && buffer.max == st.limit
    modifies buffer, buffer.decoded, buffer.decoded.raw, buffer.decoded.frames
    ensures buffer.Valid()
    ensures ok ==> step == F.TakeStep(old(buffer.Remaining()), cur, st)
    ensures ok && step.Emit? ==>
      && 0 <= step.fragment.next.offset - cur.offset <= |old(buffer.Remaining())|
      && buffer.Remaining() == old(buffer.Remaining())[step.fragment.next.offset - cur.offset..]
    ensures ok && step.Done? ==> buffer.decoded.decodedEof
    ensures buffer.decoded.Sound() ==> ok
  {
    hide *;
    ghost var rest := buffer.Remaining();
    var c: F.Chunk;
    ok, c := buffer.NextChunk();
    if !ok {
      return false, F.Done;
    }
    StepCases(rest, cur, st);
    if c.content == [] && !c.terminated {
      return true, F.Done;
    }
    var chosen := ChooseLength(c, cur, st);
    if chosen.None? {
      return true, F.Stuck;
    }
    PushRemainder(buffer, rest, c, chosen.value);
    step := F.Emit(F.LogFragment(F.EntryFor(c, chosen.value, cur, st), F.Advance(c, chosen.value, cur, st)));
  }

  /** The step taken, by the chunk and the length chosen for it. */
  lemma StepCases(rest: Bytes, cur: F.Cursor, st: F.Settings)
    requires st.Usable()
    ensures var c := F.NextChunk(rest, st.limit);
      && c.content <= rest
      && (c.terminated ==> |c.content| < |rest| && rest[|c.content|] == NEWLINE)
      && (c.content == [] && !c.terminated ==> F.TakeStep(rest, cur, st) == F.Done)
      && (c.content != [] || c.terminated ==>
        var n := F.ChosenLength(c, |c.content|, cur, st);
        if n.None? then F.TakeStep(rest, cur, st) == F.Stuck
        else
          && n.value <= |c.content|
          && F.Advance(c, n.value, cur, st).offset - cur.offset
             == n.value + (if (c.terminated || c.eofFinal) && n.value == |c.content| && c.terminated then 1 else 0)
          && F.TakeStep(rest, cur, st)
             == F.Emit(F.LogFragment(F.EntryFor(c, n.value, cur, st), F.Advance(c, n.value, cur, st))))
  {
    hide F.EntryFor;
  }

  /** Put back what a shortened payload leaves over, with the newline of its line. */
  method PushRemainder(buffer: LineBuffer, ghost rest: Bytes, c: F.Chunk, n: nat)
    requires buffer.Valid() && n <= |c.content| && c.content <= rest
    requires c.terminated ==> |c.content| < |rest| && rest[|c.content|] == NEWLINE
    requires buffer.Remaining() == rest[|c.content| + (if c.terminated then 1 else 0)..]
    modifies buffer`buf
    ensures buffer.Valid()
    ensures var final := (c.terminated || c.eofFinal) && n == |c.content|;
      buffer.Remaining() == rest[n + (if final && c.terminated then 1 else 0)..]
  {
    var final := (c.terminated || c.eofFinal) && n == |c.content|;
    if !final {
      var remainder := c.content[n..];
      if c.terminated {
        remainder := remainder + [NEWLINE];
      }
      PushedBack(rest, c, n, remainder);
      buffer.PushFront(remainder);
    }
  }

  lemma PushedBack(rest: Bytes, c: F.Chunk, n: nat, remainder: Bytes)
    requires n <= |c.content| && c.content <= rest
    requires c.terminated ==> |c.content| < |rest| && rest[|c.content|] == NEWLINE
    requires remainder == c.content[n..] + (if c.terminated then [NEWLINE] else [])
    ensures remainder + rest[|c.content| + (if c.terminated then 1 else 0)..] == rest[n..]
  {
  }

  /**
   The fragmenter. A run that ends by itself yields exactly the fragments of the bytes from the resume
   offset on; one that is stopped by a failing read has yielded a prefix of them.
   */
  method IterLogFragments(decoded: DecodedLogReader, filename: Bytes, sourceId: Bytes, start: F.Cursor,
                          activePrefix: bool, maxRaw: int, shrinkTarget: (nat, nat) -> int)
    returns (out: seq<F.LogFragment>, end: End)
    requires decoded.Valid()
    modifies decoded, decoded.raw, decoded.frames
    ensures maxRaw < 1 ==> out == [] && end == Stopped(BadLimit)
    ensures maxRaw >= 1 ==>
      var st := F.Settings(filename, sourceId, activePrefix, F.Min(maxRaw, MAX_RAW_FRAGMENT), shrinkTarget);
      var skip := start.offset - old(decoded.Position());
      if skip < 0 then out == [] && end == Stopped(OffsetPassed)
      else if skip > |old(decoded.Rest())| then out == [] && end.Stopped?
      else
        var run := F.Fragments(old(decoded.Rest())[skip..], start, st);
        && (end.Finished? ==> run == F.Run(out, false))
        && (end.EncodingError? ==> run == F.Run(out, true))
        && (end.Stopped? ==> end.failure == ReadFailed && out <= run.fragments && !decoded.Sound())
    ensures end.Finished? ==> decoded.plain || !decoded.frames.corrupt
  {
    hide F.TakeStep, F.Fragments, SoFar;
    out := [];
    if maxRaw < 1 {
      return [], Stopped(BadLimit);
    }
    var st := F.Settings(filename, sourceId, activePrefix, F.Min(maxRaw, MAX_RAW_FRAGMENT), shrinkTarget);
    var skip := start.offset - decoded.Position();
    if skip < 0 {
      return [], Stopped(OffsetPassed);
    }
    var failure := SkipTo(decoded, skip);
    if failure.Some? {
      return [], Stopped(failure.value);
    }
    ghost var whole := F.Fragments(decoded.Rest(), start, st);
    var buffer := new LineBuffer(decoded, st.limit);
    var cur := start;
    SoFarStart(decoded.Rest(), start, st);
    while true
      invariant buffer.Valid() && buffer.decoded == decoded && buffer.max == st.limit && fresh(buffer)
      invariant SoFar(whole, out, buffer.Remaining(), cur, st)
      decreases |buffer.Remaining()|
    {
      SoFarStep(whole, out, buffer.Remaining(), cur, st);
      var ok, step := NextFragment(buffer, cur, st);
      if !ok {
        return out, Stopped(ReadFailed);
      }
      match step
      case Done =>
        return out, Finished;
      case Stuck =>
        return out, EncodingError;
      case Emit(f) =>
        out := out + [f];
        cur := f.next;
    }
  }

  lemma SoFarStart(rest: Bytes, cur: F.Cursor, st: F.Settings)
    requires st.Usable()
    ensures SoFar(F.Fragments(rest, cur, st), [], rest, cur, st)
  {
    var run := F.Fragments(rest, cur, st);
    assert [] + run.fragments == run.fragments;
  }
}
