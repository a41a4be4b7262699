/**
 Durable source identity and provenance: when two probes are the same generation of one logical source, which
 id a replacement gets, and when the current file is fully covered. Text is held as its UTF-8 bytes.
 */
module Sources {
  import opened Utf8
  import opened LogEntry
  import Json
  import F = Fragments

  type Text = Bytes

  datatype Compression = Plain | Gzip | Zstd
  datatype Profile = Npm | Pbs
  datatype LogKind = Application | Task | Api | TaskIndex

  /** A SHA-256 digest, modelled as the content it determines: equal digests mean equal contents. */
  datatype Digest = Sha256(content: Bytes)

  /** What a probe observes of one file. */
  datatype Wire = Wire(
    path: Text,
    device: nat,
    inode: nat,
    size: nat,
    mtimeNs: nat,
    allocatedBytes: nat,
    compression: Compression,
    profile: Profile,
    logKind: LogKind,
    isActive: bool)

  datatype Provenance = Provenance(
    canonicalPath: Text,
    activeAtCapture: bool,
    generation: nat,
    complete: bool,
    completeSize: nat,
    rawSha256: Option<Digest>,
    decodedSha256: Option<Digest>,
    decodedBytes: nat,
    blobSha256: Option<Digest>,
    blobDecodedBytes: Option<nat>,
    lineageOf: Option<Text>,
    verifiedRawSize: nat,
    coverageConflict: bool)
  {
    function WithCompletion(size: nat, raw: Digest, decoded: Digest, decodedLength: nat, frozen: bool,
                            lineage: Option<Text>): Provenance {
      this.(complete := true,
            completeSize := size,
            rawSha256 := Some(raw),
            decodedSha256 := Some(decoded),
            decodedBytes := decodedLength,
            blobSha256 := if frozen then Some(raw) else blobSha256,
            blobDecodedBytes := if frozen then Some(decodedLength) else blobDecodedBytes,
            lineageOf := if lineage.Some? then lineage else lineageOf)
    }

    function WithVerification(size: nat, conflict: bool): Provenance {
      this.(verifiedRawSize := size, coverageConflict := conflict)
    }
  }

  function FreshProvenance(wire: Wire, generation: nat): Provenance {
    Provenance(wire.path, wire.isActive, if generation < 1 then 1 else generation, false, 0, None, None, 0, None, None,
               None, 0, false)
  }

  /** The spool blob of a captured prefix. */
  datatype BlobKey = BlobKey(captureId: Text, blobPath: Text)

  datatype Alias = Alias(path: Text, device: nat, inode: nat)

  /** One persisted source row. `identity` is the last probe recorded for it. */
  datatype SourceRecord = SourceRecord(
    identity: Wire,
    provenance: Provenance,
    aliases: seq<Alias>,
    inInitialManifest: bool,
    blob: Option<BlobKey>,
    digest: Option<Digest>,
    progress: F.Cursor,
    streamTsNs: Option<nat>,
    acknowledged: bool,
    absent: bool,
    updatedNs: nat)

  // ---- Names ---------------------------------------------------------------------------------------

  const GZ: Text := Json.Ascii(".gz")
  const ZST: Text := Json.Ascii(".zst")
  const ZSTD: Text := Json.Ascii(".zstd")
  const LOG: Text := Json.Ascii(".log")
  const DASH: byte := 45
  const DOT: byte := 46
  const SLASH: byte := 47

  predicate EndsWith(s: Text, suffix: Text) {
    |suffix| <= |s| && s[|s| - |suffix|..] == suffix
  }

  function PlainLogPath(path: Text): (r: Text)
    ensures r <= path
  {
    if EndsWith(path, GZ) then path[..|path| - |GZ|]
    else if EndsWith(path, ZST) then path[..|path| - |ZST|]
    else if EndsWith(path, ZSTD) then path[..|path| - |ZSTD|]
    else path
  }

  /** The compression the node reports for a name. */
  function CompressionFor(path: Text): Compression {
    if EndsWith(path, GZ) then Gzip
    else if EndsWith(path, ZST) || EndsWith(path, ZSTD) then Zstd
    else Plain
  }

  /** The name of a probed file tells its compression. */
  predicate WireOk(w: Wire) {
    w.compression == CompressionFor(w.path)
  }

  /** The part after the last slash. */
  function Basename(path: Text): Text {
    if path == [] || path[|path| - 1] == SLASH then [] else Basename(path[..|path| - 1]) + [path[|path| - 1]]
  }

  predicate IsDigit(b: byte) {
    48 <= b <= 57
  }

  predicate AllDigits(s: Text) {
    forall i :: 0 <= i < |s| ==> IsDigit(s[i])
  }

  /** `-YYYYmmddTHHMMSS` */
  predicate IsTimestampSuffix(s: Text) {
    |s| == 16 && s[0] == DASH && AllDigits(s[1..9]) && s[9] == 84 && AllDigits(s[10..])
  }

  /** `.N` */
  predicate IsNumericSuffix(s: Text) {
    |s| >= 2 && s[0] == DOT && AllDigits(s[1..])
  }

  /** Index of the last occurrence of `.log`, or None. */
  function LastLog(s: Text): (r: Option<nat>)
    ensures r.Some? ==> r.value + |LOG| <= |s| && s[r.value..r.value + |LOG|] == LOG
  {
    if |s| < |LOG| then None
    else if s[|s| - |LOG|..] == LOG then Some(|s| - |LOG|)
    else LastLog(s[..|s| - 1])
  }

  /** An NPM archive name without its compression suffix: a base `.log` name, then a number or a timestamp. */
  predicate IsPlainArchiveName(name: Text) {
    exists i :: 1 <= i <= |name| - |LOG| && ArchiveSplit(name, i)
  }

  predicate ArchiveSplit(name: Text, i: nat) {
    && i + |LOG| <= |name|
    && name[i..i + |LOG|] == LOG
    && (IsTimestampSuffix(name[i + |LOG|..]) || IsNumericSuffix(name[i + |LOG|..]))
  }

  predicate IsNpmArchiveName(name: Text) {
    || IsPlainArchiveName(name)
    || (EndsWith(name, GZ) && IsPlainArchiveName(name[..|name| - |GZ|]))
    || (EndsWith(name, ZST) && IsPlainArchiveName(name[..|name| - |ZST|]))
    || (EndsWith(name, ZSTD) && IsPlainArchiveName(name[..|name| - |ZSTD|]))
  }

  predicate IsPbsApiBase(name: Text) {
    && (Json.Ascii("access.log") <= name || Json.Ascii("auth.log") <= name)
    && IsNumericSuffix(name[if Json.Ascii("access.log") <= name then 10 else 8..])
  }

  predicate IsPbsApiArchiveName(name: Text) {
    || IsPbsApiBase(name)
    || (EndsWith(name, GZ) && IsPbsApiBase(name[..|name| - |GZ|]))
    || (EndsWith(name, ZST) && IsPbsApiBase(name[..|name| - |ZST|]))
    || (EndsWith(name, ZSTD) && IsPbsApiBase(name[..|name| - |ZSTD|]))
  }

  /** A live log name that native rotation owns. */
  predicate CurrentLogName(profile: Profile, logKind: LogKind, path: Text) {
    if profile == Npm && logKind == Application then !IsNpmArchiveName(Basename(path))
    else if profile == Pbs && logKind == Api then !IsPbsApiArchiveName(Basename(path))
    else false
  }

  /** A PBS task id or an NPM rotation family; None for kinds without an identity in their name. */
  function LogicalIdentity(profile: Profile, logKind: LogKind, path: Text): Option<Text> {
    var plain := PlainLogPath(path);
    if profile == Pbs && logKind == Task then Some(Basename(plain))
    else if profile == Npm && logKind == Application && (EndsWith(plain, LOG) || IsNpmArchiveName(Basename(plain))) then
      Some(Family(plain))
    else None
  }

  /** `plain[:plain.rfind(".log") + 4]`; without an occurrence the search yields -1. */
  function Family(plain: Text): (r: Text)
    ensures r <= plain
  {
    var at := LastLog(plain);
    if at.Some? then plain[..at.value + |LOG|]
    else plain[..F.Min(|plain|, |LOG| - 1)]
  }

  /** An NPM name carrying a rotation timestamp; such a name is immutable but for its compression suffix. */
  predicate Pinned(profile: Profile, logKind: LogKind, path: Text) {
    var identified := LogicalIdentity(profile, logKind, path);
    profile == Npm && logKind == Application && identified.Some? && identified.value + [DASH] <= PlainLogPath(path)
  }

  predicate SameLogicalSource(profile: Profile, logKind: LogKind, a: Text, b: Text) {
    var identified := LogicalIdentity(profile, logKind, a);
    identified.None? ||
    (&& identified == LogicalIdentity(profile, logKind, b)
     && (Pinned(profile, logKind, a) ==> PlainLogPath(a) == PlainLogPath(b)))
  }

  // ---- Records against probes ----------------------------------------------------------------------

  function CanonicalPath(r: SourceRecord): Text {
    if r.provenance.canonicalPath == [] then r.identity.path else r.provenance.canonicalPath
  }

  predicate IdentityCompatible(r: SourceRecord, wire: Wire) {
    && r.identity.profile == wire.profile
    && r.identity.logKind == wire.logKind
    && SameLogicalSource(wire.profile, wire.logKind, CanonicalPath(r), wire.path)
    && SameLogicalSource(wire.profile, wire.logKind, r.identity.path, wire.path)
  }

  predicate SameInode(a: Wire, b: Wire) {
    a.device == b.device && a.inode == b.inode
  }

  predicate IsPrefixComplete(r: SourceRecord) {
    r.digest.Some? && r.provenance.complete
  }

  predicate PrefixCompleteForCurrent(r: SourceRecord, wire: Wire) {
    && IdentityCompatible(r, wire)
    && IsPrefixComplete(r)
    && SameInode(r.identity, wire)
    && r.provenance.completeSize == wire.size
  }

  /** Rename or append of the same file, as opposed to a replacement. */
  predicate SameGeneration(r: SourceRecord, wire: Wire, currentPaths: map<Text, (nat, nat)>) {
    && IdentityCompatible(r, wire)
    && wire.compression == r.identity.compression
    && SameInode(r.identity, wire)
    && var same := r.identity.size == wire.size && r.identity.mtimeNs == wire.mtimeNs;
       var renamed := r.identity.path != wire.path
         && !(r.identity.path in currentPaths
              && currentPaths[r.identity.path] == (r.identity.device, r.identity.inode));
       same
       || (wire.compression == Plain && wire.size > r.identity.size && (r.identity.path == wire.path || renamed))
  }

  /** The prune authorisation: acknowledged full coverage of the file as it now is. */
  predicate CurrentCoverage(r: SourceRecord, wire: Wire) {
    && r.digest.Some? && r.acknowledged
    && r.identity.logKind != TaskIndex && !r.identity.isActive
    && !CurrentLogName(r.identity.profile, r.identity.logKind, r.identity.path)
    && PrefixCompleteForCurrent(r, wire)
  }

  // ---- Lineage over whole runs ---------------------------------------------------------------------

  /** A row as it is first written for a probe. */
  predicate IsFresh(r: SourceRecord) {
    r.identity.path != [] && r.provenance.canonicalPath == r.identity.path
  }

  /** A row after a sequence of refreshes, each of which passed the same-generation test. */
  function Refreshed(r: SourceRecord, probes: seq<Wire>): SourceRecord {
    if probes == [] then r else Refreshed(r, probes[..|probes| - 1]).(identity := probes[|probes| - 1])
  }

  ghost predicate Admitted(r: SourceRecord, probes: seq<Wire>, paths: seq<map<Text, (nat, nat)>>)
    requires |paths| == |probes|
  {
    forall i :: 0 <= i < |probes| ==> SameGeneration(Refreshed(r, probes[..i]), probes[i], paths[i])
  }

  lemma {:induction false} RefreshedKeeps(r: SourceRecord, probes: seq<Wire>)
    ensures Refreshed(r, probes).provenance == r.provenance
    ensures probes != [] ==> Refreshed(r, probes).identity == probes[|probes| - 1]
  {
    if probes != [] {
      RefreshedKeeps(r, probes[..|probes| - 1]);
    }
  }

  /**
   Along any admitted sequence of refreshes a source stays in the rotation family or task it was first
   recorded under, with the profile, kind and compression it had then, and its size never shrinks.
   */
  lemma {:induction false} FamilyNeverChanges(r: SourceRecord, probes: seq<Wire>, paths: seq<map<Text, (nat, nat)>>)
    requires IsFresh(r) && |paths| == |probes| && Admitted(r, probes, paths)
    ensures var now := Refreshed(r, probes).identity;
      && now.profile == r.identity.profile && now.logKind == r.identity.logKind
      && now.compression == r.identity.compression
      && SameInode(now, r.identity)
      && now.size >= r.identity.size
      && var family := LogicalIdentity(r.identity.profile, r.identity.logKind, r.identity.path);
         family.Some? ==> LogicalIdentity(now.profile, now.logKind, now.path) == family
  {
    hide LogicalIdentity, Pinned, PlainLogPath;
    if probes != [] {
      var n := |probes| - 1;
      AdmittedPrefix(r, probes, paths);
      FamilyNeverChanges(r, probes[..n], paths[..n]);
      RefreshedKeeps(r, probes[..n]);
      assert SameGeneration(Refreshed(r, probes[..n]), probes[n], paths[n]);
    }
  }

  lemma AdmittedPrefix(r: SourceRecord, probes: seq<Wire>, paths: seq<map<Text, (nat, nat)>>)
    requires |paths| == |probes| && probes != [] && Admitted(r, probes, paths)
    ensures Admitted(r, probes[..|probes| - 1], paths[..|probes| - 1])
  {
    hide SameGeneration, Refreshed;
    var n := |probes| - 1;
    forall i | 0 <= i < n
      ensures SameGeneration(Refreshed(r, probes[..n][..i]), probes[..n][i], paths[..n][i])
    {
      assert probes[..n][..i] == probes[..i];
    }
  }

  /** Once seen under a timestamped name, a source keeps that plain name for ever. */
  lemma {:induction false} TimestampedNameIsFinal(r: SourceRecord, probes: seq<Wire>, paths: seq<map<Text, (nat, nat)>>,
                                                 k: nat, j: nat)
    requires |paths| == |probes| && Admitted(r, probes, paths) && k <= j < |probes|
    requires PinnedWire(probes[k])
    ensures PinnedWire(probes[j]) && PlainLogPath(probes[j].path) == PlainLogPath(probes[k].path)
    decreases j
  {
    hide PinnedWire, PlainLogPath, SameGeneration;
    if k < j {
      TimestampedNameIsFinal(r, probes, paths, k, j - 1);
      RefreshedKeeps(r, probes[..j]);
      PinnedStep(Refreshed(r, probes[..j]), probes[j], paths[j]);
    }
  }

  predicate PinnedWire(wire: Wire) {
    Pinned(wire.profile, wire.logKind, wire.path)
  }

  lemma PinnedStep(r: SourceRecord, wire: Wire, paths: map<Text, (nat, nat)>)
    requires SameGeneration(r, wire, paths) && PinnedWire(r.identity)
    ensures PinnedWire(wire) && PlainLogPath(wire.path) == PlainLogPath(r.identity.path)
  {
    hide PlainLogPath, Basename, Family;
  }

  // ---- Ids -----------------------------------------------------------------------------------------

  function Hex(s: Bytes): Text {
    if s == [] then [] else [Json.HexDigit(s[0] / 16), Json.HexDigit(s[0] % 16)] + Hex(s[1..])
  }

  function ProfileTag(profile: Profile): byte {
    match profile case Npm => 0 case Pbs => 1
  }

  function KindTag(kind: LogKind): byte {
    match kind case Application => 0 case Task => 1 case Api => 2 case TaskIndex => 3
  }

  /** The id of a path's first row: a digest in hexadecimal, modelled as the text it determines. */
  function BaseSourceId(profile: Profile, kind: LogKind, path: Text): Text {
    Hex([ProfileTag(profile), KindTag(kind)] + path)
  }

  lemma {:induction false} HexIsInjective(a: Bytes, b: Bytes)
    requires Hex(a) == Hex(b)
    ensures a == b
  {
    if a != [] && b != [] {
      assert Hex(a)[..2] == [Json.HexDigit(a[0] / 16), Json.HexDigit(a[0] % 16)];
      assert Hex(b)[..2] == [Json.HexDigit(b[0] / 16), Json.HexDigit(b[0] % 16)];
      assert Hex(a)[2..] == Hex(a[1..]) && Hex(b)[2..] == Hex(b[1..]);
      assert Json.HexValue(Hex(a)[0]) == a[0] / 16 && Json.HexValue(Hex(a)[1]) == a[0] % 16;
      assert Json.HexValue(Hex(b)[0]) == b[0] / 16 && Json.HexValue(Hex(b)[1]) == b[0] % 16;
      assert a[0] == b[0];
      HexIsInjective(a[1..], b[1..]);
      assert a == [a[0]] + a[1..] && b == [b[0]] + b[1..];
    }
  }

  /** Different files have different base ids. */
  lemma BaseIdsDiffer(profile: Profile, kind: LogKind, path: Text, otherProfile: Profile, otherKind: LogKind,
                      other: Text)
    requires BaseSourceId(profile, kind, path) == BaseSourceId(otherProfile, otherKind, other)
    ensures (profile, kind, path) == (otherProfile, otherKind, other)
  {
    var a, b := [ProfileTag(profile), KindTag(kind)] + path, [ProfileTag(otherProfile), KindTag(otherKind)] + other;
    HexIsInjective(a, b);
    assert a[0] == b[0] && a[1] == b[1] && a[2..] == b[2..];
    assert a[2..] == path && b[2..] == other;
  }

  lemma {:induction false} HexHasNoMark(s: Bytes)
    ensures DOT !in Hex(s)
  {
    if s != [] {
      HexHasNoMark(s[1..]);
    }
  }

  /** The id of a later generation is never the id of a path's first row. */
  lemma GenerationIsNoBase(base: Text, generation: nat, profile: Profile, kind: LogKind, path: Text)
    ensures GenerationId(base, generation) != BaseSourceId(profile, kind, path)
  {
    HexHasNoMark([ProfileTag(profile), KindTag(kind)] + path);
    assert GenerationId(base, generation)[|base|] == DOT;
  }

  // ---- Ids of replacement generations --------------------------------------------------------------

  const GENERATION_MARK: Text := [DOT, 103]

  /** The decimal value of a digit string. */
  function Number(s: Text): nat
    requires AllDigits(s)
  {
    if s == [] then 0 else Number(s[..|s| - 1]) * 10 + (s[|s| - 1] - 48)
  }

  /** The generation an existing id already uses for this base, or 0. */
  function GenerationOf(id: Text, base: Text): nat {
    var prefix := base + GENERATION_MARK;
    if prefix <= id && |id| > |prefix| && AllDigits(id[|prefix|..]) then Number(id[|prefix|..]) else 0
  }

  function Highest(ids: seq<Text>, base: Text): (h: nat)
    ensures h >= 1
    ensures forall id <- ids :: GenerationOf(id, base) <= h
  {
    if ids == [] then 1
    else F.Max(Highest(ids[..|ids| - 1], base), GenerationOf(ids[|ids| - 1], base))
  }

  function GenerationId(base: Text, generation: nat): Text {
    base + GENERATION_MARK + Json.Digits(generation)
  }

  function NextGeneration(ids: seq<Text>, base: Text): (Text, nat) {
    var generation := Highest(ids, base) + 1;
    (GenerationId(base, generation), generation)
  }

  /** The scan for the highest generation in use. */
  method ComputeNextGeneration(ids: seq<Text>, base: Text) returns (id: Text, generation: nat)
    ensures (id, generation) == NextGeneration(ids, base)
  {
    var highest := 1;
    for i := 0 to |ids|
      invariant highest == Highest(ids[..i], base)
    {
      assert ids[..i + 1][..i] == ids[..i];
      highest := F.Max(highest, GenerationOf(ids[i], base));
    }
    assert ids[..|ids|] == ids;
    generation := highest + 1;
    id := GenerationId(base, generation);
  }

  /** Decimal digits read back as the number they were written for. */
  lemma {:induction false} DigitsNumber(n: nat)
    ensures AllDigits(Json.Digits(n)) && Number(Json.Digits(n)) == n
  {
    if n < 10 {
      assert Json.Digits(n)[..0] == [];
    } else {
      DigitsNumber(n / 10);
      var d := Json.Digits(n);
      assert d[..|d| - 1] == Json.Digits(n / 10);
    }
  }

  /** The id given to a replacement is never one that is already in use, and its generation is above them all. */
  lemma NextGenerationIsFresh(ids: seq<Text>, base: Text)
    ensures NextGeneration(ids, base).0 !in ids
    ensures forall id <- ids :: GenerationOf(id, base) < NextGeneration(ids, base).1
    ensures NextGeneration(ids, base).1 >= 2
  {
    hide Highest, Number;
    var (id, generation) := NextGeneration(ids, base);
    DigitsNumber(generation);
    var prefix := base + GENERATION_MARK;
    assert id[|prefix|..] == Json.Digits(generation);
    assert GenerationOf(id, base) == generation;
  }

  /**
   Freshness is per call: two replacements planned against the same list of ids get the same id exactly when
   they were matched to the same base.
   */
  lemma SamePlanCollision(ids: seq<Text>, base: Text, other: Text)
    ensures NextGeneration(ids, base).0 == NextGeneration(ids, other).0 <==> base == other
  {
    hide Highest;
    if NextGeneration(ids, base).0 == NextGeneration(ids, other).0 {
      var g, h := NextGeneration(ids, base).1, NextGeneration(ids, other).1;
      DigitsNumber(g);
      DigitsNumber(h);
      if |base| < |other| {
        MarkIsNoDigit(base, Json.Digits(g), other, Json.Digits(h));
      } else if |other| < |base| {
        MarkIsNoDigit(other, Json.Digits(h), base, Json.Digits(g));
      } else {
        assert base == GenerationId(base, g)[..|base|];
        assert other == GenerationId(other, h)[..|other|];
      }
    }
  }

  /** The mark of the longer base would have to stand among the digits of the shorter one. */
  lemma MarkIsNoDigit(base: Text, digits: Text, other: Text, otherDigits: Text)
    requires AllDigits(digits) && AllDigits(otherDigits) && |base| < |other|
    ensures base + GENERATION_MARK + digits != other + GENERATION_MARK + otherDigits
  {
    var a, b := base + GENERATION_MARK + digits, other + GENERATION_MARK + otherDigits;
    var k := |other| + 1;
    assert b[k] == 103;
    if k < |a| {
      assert a[k] == digits[k - |base| - 2];
    }
  }
}
