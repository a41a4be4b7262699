/**
 The node side of pruning: files are renamed into quarantine, checked again, and unlinked only when device,
 inode, size, time and digest are exactly those of the request.
 */
module GuestFiles {
  import opened Utf8
  import opened LogEntry
  import opened Sources

  /** A regular file of the guest. */
  datatype NodeFile = NodeFile(device: nat, inode: nat, mtimeNs: nat, content: Bytes)

  /** One approved deletion: the exact file, its digest, where to quarantine it, and whether it is a recovery. */
  datatype PruneSpec = PruneSpec(wire: Wire, sha256: Digest, quarantine: Text, sourceId: Option<Text>, recovery: bool)

  datatype OutcomeState =
    | OutcomeDone | OutcomeRestored | OutcomeAbsent | OutcomeBlocked | OutcomePending | OutcomeConflict | OutcomeUnknown

  /** The node's outcome for one request. `paused` marks a deletion after which nothing more may be deleted. */
  datatype Outcome = Outcome(wire: Wire, state: OutcomeState, reclaimed: nat, paused: bool, detail: Text)

  predicate SameFile(spec: PruneSpec, f: NodeFile) {
    (f.device, f.inode, |f.content|, f.mtimeNs)
        == (spec.wire.device, spec.wire.inode, spec.wire.size, spec.wire.mtimeNs)
  }

  /** The file is exactly the one the request was approved for. */
  predicate Matches(spec: PruneSpec, f: NodeFile) {
    SameFile(spec, f) && Sha256(f.content) == spec.sha256
  }

  datatype Deletion = Deletion(spec: PruneSpec, file: NodeFile)

  function DoneOutcomes(outcomes: seq<Outcome>): nat {
    if outcomes == [] then 0
    else DoneOutcomes(outcomes[..|outcomes| - 1]) + (if outcomes[|outcomes| - 1].state == OutcomeDone then 1 else 0)
  }

  /** What the node was asked to prune and what it answered, if the answer was not lost. */
  datatype Answer = Answer(specs: seq<PruneSpec>, lost: bool, outcomes: seq<Outcome>)

  /**
   The guest's files; `deleted` records what has been unlinked, and for which request, `answers` what was answered.
   */
  class Node {
    var files: map<Text, NodeFile>
    ghost var deleted: seq<Deletion>
    ghost var answers: seq<Answer>

    constructor (files: map<Text, NodeFile>)
      ensures this.files == files && deleted == [] && answers == []
    {
      this.files := files;
      deleted, answers := [], [];
    }

    /** Whatever the guest does to its files: appends, rotations, renames, new files, reused inodes. */
    method Change(files: map<Text, NodeFile>)
      modifies this`files
      ensures this.files == files
    {
      this.files := files;
    }

    /** Unlink the file at a path; the unlink may take effect although its durability could not be confirmed. */
    method Unlink(spec: PruneSpec, at: Text) returns (entry: Outcome)
      requires at in files && Matches(spec, files[at])
      modifies this`files, this`deleted
      ensures entry.wire == spec.wire && entry.state in {OutcomeDone, OutcomeBlocked}
      ensures
        || (files == old(files) && deleted == old(deleted) && entry.state == OutcomeBlocked)
        || (files == old(files) - {at} && deleted == old(deleted) + [Deletion(spec, old(files)[at])])
    {
      var unlinked: bool := *;
      if unlinked {
        deleted := deleted + [Deletion(spec, files[at])];
        files := files - {at};
      }
      var confirmed: bool := *;
      if !unlinked || !confirmed {
        return Outcome(spec.wire, OutcomeBlocked, 0, false, []);
      }
      var measured: int := *;
      entry := Outcome(spec.wire, OutcomeDone, if measured >= 0 then measured else 0, measured < 0, []);
    }

    /** Put the quarantined file back if its place is free, else keep it where it is. */
    method RestoreOrRetain(spec: PruneSpec) returns (entry: Outcome)
      requires spec.quarantine in files && spec.quarantine != spec.wire.path
      modifies this`files
      ensures entry.wire == spec.wire && entry.state in {OutcomeRestored, OutcomeConflict}
      ensures files == old(files)
              || (spec.wire.path !in old(files)
                  && files == (old(files) - {spec.quarantine})[spec.wire.path := old(files)[spec.quarantine]])
    {
      var works: bool := *;
      if spec.wire.path !in files && works {
        files := (files - {spec.quarantine})[spec.wire.path := files[spec.quarantine]];
        return Outcome(spec.wire, OutcomeRestored, 0, false, []);
      }
      entry := Outcome(spec.wire, OutcomeConflict, 0, false, []);
    }

    /** Finish what an interrupted run left in quarantine. */
    method RecoverLeftover(spec: PruneSpec) returns (entry: Outcome)
      requires spec.quarantine in files
      modifies this`files, this`deleted
      ensures entry.wire == spec.wire && entry.state != OutcomeAbsent
      ensures Effect(spec, old(files), files, old(deleted), deleted)
      ensures entry.state == OutcomeDone ==> |deleted| > |old(deleted)|
    {
      var refused: bool := *;
      if refused || spec.wire.path in files || !Matches(spec, files[spec.quarantine]) {
        return Outcome(spec.wire, OutcomeConflict, 0, false, []);
      }
      entry := Unlink(spec, spec.quarantine);
    }

    /** Rename into quarantine, look again, unlink; or put it back. */
    method QuarantineAndUnlink(spec: PruneSpec) returns (entry: Outcome)
      requires spec.wire.path in files && spec.quarantine !in files && Matches(spec, files[spec.wire.path])
      modifies this`files, this`deleted
      ensures entry.wire == spec.wire && entry.state != OutcomeAbsent
      ensures Effect(spec, old(files), files, old(deleted), deleted)
      ensures entry.state == OutcomeDone ==> |deleted| > |old(deleted)|
    {
      var renamed: bool := *;
      if !renamed {
        return Outcome(spec.wire, OutcomeConflict, 0, false, []);
      }
      files := (files - {spec.wire.path})[spec.quarantine := files[spec.wire.path]];
      var verified: bool := *;
      if verified {
        entry := Unlink(spec, spec.quarantine);
        if entry.state == OutcomeBlocked && spec.quarantine in files {
          var _ := RestoreOrRetain(spec);
        }
        return;
      }
      entry := RestoreOrRetain(spec);
      var known: bool := *;
      if !known {
        entry := Outcome(spec.wire, OutcomeBlocked, 0, false, []);
      }
    }

    /** One request. The file is deleted only if it is exactly the approved one; absence is told of recoveries only. */
    method PruneOne(spec: PruneSpec) returns (entry: Outcome)
      requires spec.quarantine != spec.wire.path
      modifies this`files, this`deleted
      ensures entry.wire == spec.wire
      ensures Effect(spec, old(files), files, old(deleted), deleted)
      ensures entry.state == OutcomeDone ==> |deleted| > |old(deleted)|
      ensures entry.state == OutcomeAbsent ==>
        spec.recovery && spec.wire.path !in old(files) && spec.quarantine !in old(files) && deleted == old(deleted)
    {
      var refused: bool := *;
      if refused {
        var trusted: bool := *;
        return Outcome(spec.wire, if trusted then OutcomeConflict else OutcomeBlocked, 0, false, []);
      }
      if spec.recovery && spec.wire.path !in files && spec.quarantine !in files {
        return Outcome(spec.wire, OutcomeAbsent, 0, false, []);
      }
      if spec.quarantine in files
         && (files[spec.quarantine].device, files[spec.quarantine].inode) == (spec.wire.device, spec.wire.inode) {
        entry := RecoverLeftover(spec);
        return;
      }
      if spec.wire.path !in files || !Matches(spec, files[spec.wire.path]) || spec.quarantine in files {
        return Outcome(spec.wire, OutcomeConflict, 0, false, []);
      }
      entry := QuarantineAndUnlink(spec);
    }

    /**
     All requests in order, until one is blocked. The answer may be lost after any of them; whatever was deleted
     was the exact file of its request, and no other file is lost: what there was is what there is and what was deleted.
     */
    method Prune(specs: seq<PruneSpec>) returns (failed: bool, entries: seq<Outcome>)
      requires forall spec <- specs :: spec.quarantine != spec.wire.path
      modifies this
      ensures |deleted| >= |old(deleted)| && deleted[..|old(deleted)|] == old(deleted)
      ensures forall d <- deleted[|old(deleted)|..] :: d.spec in specs && Matches(d.spec, d.file)
      ensures Conserved(old(files), files, deleted[|old(deleted)|..]) && Elsewhere(old(files), files, specs)
      ensures DoneWasDeleted(entries, specs, deleted[|old(deleted)|..])
      ensures DoneOutcomes(entries) <= |deleted| - |old(deleted)|
      ensures answers == old(answers) + [Answer(specs, failed, entries)]
      ensures !failed ==> |entries| == |specs| && forall i :: 0 <= i < |specs| ==> entries[i].wire == specs[i].wire
    {
      hide Matches, Effect, Conserved, Elsewhere, DoneWasDeleted;
      entries := [];
      var blocked := false;
      NothingMoved(files, deleted, specs);
      for i := 0 to |specs|
        invariant |entries| == i && forall j :: 0 <= j < i ==> entries[j].wire == specs[j].wire
        invariant |deleted| >= |old(deleted)| && deleted[..|old(deleted)|] == old(deleted)
        invariant forall d <- deleted[|old(deleted)|..] :: d.spec in specs && Matches(d.spec, d.file)
        invariant Conserved(old(files), files, deleted[|old(deleted)|..]) && Elsewhere(old(files), files, specs)
        invariant DoneWasDeleted(entries, specs, deleted[|old(deleted)|..])
        invariant DoneOutcomes(entries) <= |deleted| - |old(deleted)|
        invariant answers == old(answers)
      {
        ghost var before := entries;
        ghost var filesBefore, deletedBefore := files, deleted;
        var lost: bool := *;
        if lost {
          answers := answers + [Answer(specs, true, entries)];
          return true, entries;
        }
        if blocked {
          DoneStep(entries, Outcome(specs[i].wire, OutcomePending, 0, false, []), specs, old(deleted), deleted,
                   deleted);
          entries := entries + [Outcome(specs[i].wire, OutcomePending, 0, false, [])];
        } else {
          var entry := PruneOne(specs[i]);
          OneEffect(specs[i], filesBefore, files, deletedBefore, deleted);
          EffectConserves(specs[i], filesBefore, files, deletedBefore, deleted);
          ConservedSteps(old(files), filesBefore, files, old(deleted), deletedBefore, deleted);
          ElsewhereSteps(old(files), filesBefore, files, specs, specs[i]);
          blocked := entry.state == OutcomeBlocked || entry.paused;
          DoneStep(entries, entry, specs, old(deleted), deletedBefore, deleted);
          entries := entries + [entry];
        }
        assert entries[..i] == before;
      }
      failed := *;
      answers := answers + [Answer(specs, failed, entries)];
    }
  }

  /** A request touches its own two paths only; it deletes nothing, or the one file it was approved for. */
  ghost predicate Effect(spec: PruneSpec, before: map<Text, NodeFile>, after: map<Text, NodeFile>,
                         deletedBefore: seq<Deletion>, deletedAfter: seq<Deletion>)
  {
    && (forall p: Text :: p != spec.wire.path && p != spec.quarantine ==>
          (p in before <==> p in after) && (p in before ==> after[p] == before[p]))
    && (if deletedAfter == deletedBefore then
          SetOf(after, spec) == SetOf(before, spec)
        else
          exists f: NodeFile ::
            && deletedAfter == deletedBefore + [Deletion(spec, f)]
            && Matches(spec, f)
            && SetOf(before, spec) == SetOf(after, spec) + multiset{f})
  }

  /** What a request deletes, if anything, is its own file. */
  lemma OneEffect(spec: PruneSpec, before: map<Text, NodeFile>, after: map<Text, NodeFile>,
                  deletedBefore: seq<Deletion>, deletedAfter: seq<Deletion>)
    requires Effect(spec, before, after, deletedBefore, deletedAfter)
    ensures |deletedAfter| >= |deletedBefore| && deletedAfter[..|deletedBefore|] == deletedBefore
    ensures forall d <- deletedAfter[|deletedBefore|..] :: d.spec == spec && Matches(d.spec, d.file)
    ensures |deletedAfter| > |deletedBefore| ==> deletedAfter[|deletedBefore|].spec == spec
  {
    hide Matches, SetOf;
  }

  // ---- Nothing else is lost ------------------------------------------------------------------------

  /** Where a file is found. */
  ghost function Places(files: map<Text, NodeFile>, f: NodeFile): set<Text> {
    set p | p in files && files[p] == f
  }

  /** How often a file was deleted. */
  ghost function Removed(deletions: seq<Deletion>, f: NodeFile): nat {
    if deletions == [] then 0
    else Removed(deletions[..|deletions| - 1], f) + (if deletions[|deletions| - 1].file == f then 1 else 0)
  }

  /** Every file there was is still there, or was deleted, as often as it was there. */
  ghost predicate Conserved(before: map<Text, NodeFile>, after: map<Text, NodeFile>, deletions: seq<Deletion>) {
    forall f: NodeFile :: |Places(before, f)| == |Places(after, f)| + Removed(deletions, f)
  }

  /** Nothing is touched but the two paths of each request. */
  ghost predicate Elsewhere(before: map<Text, NodeFile>, after: map<Text, NodeFile>, specs: seq<PruneSpec>) {
    forall p: Text :: (forall s <- specs :: p != s.wire.path && p != s.quarantine) ==>
      (p in before <==> p in after) && (p in before ==> after[p] == before[p])
  }

  lemma NothingMoved(files: map<Text, NodeFile>, deleted: seq<Deletion>, specs: seq<PruneSpec>)
    ensures Conserved(files, files, deleted[|deleted|..]) && Elsewhere(files, files, specs)
    ensures DoneWasDeleted([], specs, deleted[|deleted|..])
  {
  }

  /** A file reported as done was deleted, for the request at its position. */
  ghost predicate DoneWasDeleted(entries: seq<Outcome>, specs: seq<PruneSpec>, deletions: seq<Deletion>) {
    |entries| <= |specs|
    && forall j :: 0 <= j < |entries| && entries[j].state == OutcomeDone ==> DeletedFor(deletions, specs[j])
  }

  predicate DeletedFor(deletions: seq<Deletion>, spec: PruneSpec) {
    exists d <- deletions :: d.spec == spec
  }

  lemma DoneStep(entries: seq<Outcome>, entry: Outcome, specs: seq<PruneSpec>, x: seq<Deletion>, y: seq<Deletion>,
                 z: seq<Deletion>)
    requires |x| <= |y| <= |z| && z[..|y|] == y && |entries| < |specs|
    requires DoneWasDeleted(entries, specs, y[|x|..])
    requires entry.state == OutcomeDone ==> |z| > |y| && z[|y|].spec == specs[|entries|]
    ensures DoneWasDeleted(entries + [entry], specs, z[|x|..])
  {
    var more := entries + [entry];
    assert z[|x|..] == y[|x|..] + z[|y|..];
    forall j | 0 <= j < |more| && more[j].state == OutcomeDone
      ensures DeletedFor(z[|x|..], specs[j])
    {
      if j < |entries| {
        assert DeletedFor(y[|x|..], specs[j]);
      } else {
        assert z[|y|..][0] == z[|y|] && z[|y|] in z[|x|..];
      }
    }
  }

  ghost function IsAt(files: map<Text, NodeFile>, p: Text, f: NodeFile): nat {
    if p in files && files[p] == f then 1 else 0
  }

  /** The places of a file at the two paths of a request, and those elsewhere. */
  lemma PlacesSplit(files: map<Text, NodeFile>, a: Text, b: Text, f: NodeFile)
    requires a != b
    ensures |Places(files, f)| == |Places(files, f) - {a, b}| + IsAt(files, a, f) + IsAt(files, b, f)
  {
    hide Places, IsAt;
    PlaceIs(files, a, f);
    PlaceIs(files, b, f);
    var all := Places(files, f);
    OneOut(all, a);
    OneOut(all - {a}, b);
    assert all - {a} - {b} == all - {a, b};
  }

  lemma PlaceIs(files: map<Text, NodeFile>, p: Text, f: NodeFile)
    ensures IsAt(files, p, f) == if p in Places(files, f) then 1 else 0
  {
  }

  lemma OneOut(s: set<Text>, p: Text)
    ensures |s| == |s - {p}| + (if p in s then 1 else 0)
  {
    if p in s {
      assert s == (s - {p}) + {p};
    } else {
      assert s - {p} == s;
    }
  }

  lemma SetOfCounts(files: map<Text, NodeFile>, spec: PruneSpec, f: NodeFile)
    ensures SetOf(files, spec)[f] == IsAt(files, spec.wire.path, f) + IsAt(files, spec.quarantine, f)
  {
  }

  lemma EffectCounts(spec: PruneSpec, before: map<Text, NodeFile>, after: map<Text, NodeFile>,
                     deletedBefore: seq<Deletion>, deletedAfter: seq<Deletion>, f: NodeFile)
    requires Effect(spec, before, after, deletedBefore, deletedAfter) && |deletedAfter| >= |deletedBefore|
    ensures SetOf(before, spec)[f] == SetOf(after, spec)[f] + Removed(deletedAfter[|deletedBefore|..], f)
  {
    hide Matches, SetOf;
    var recent := deletedAfter[|deletedBefore|..];
    if deletedAfter != deletedBefore {
      var g: NodeFile :| deletedAfter == deletedBefore + [Deletion(spec, g)]
                         && SetOf(before, spec) == SetOf(after, spec) + multiset{g};
      assert recent == [Deletion(spec, g)] && recent[..0] == [];
    }
  }

  lemma EffectConserves(spec: PruneSpec, before: map<Text, NodeFile>, after: map<Text, NodeFile>,
                        deletedBefore: seq<Deletion>, deletedAfter: seq<Deletion>)
    requires spec.wire.path != spec.quarantine && Effect(spec, before, after, deletedBefore, deletedAfter)
    requires |deletedAfter| >= |deletedBefore|
    ensures Conserved(before, after, deletedAfter[|deletedBefore|..]) && Elsewhere(before, after, [spec])
  {
    hide Matches, SetOf, Removed, IsAt;
    var recent := deletedAfter[|deletedBefore|..];
    forall f: NodeFile
      ensures |Places(before, f)| == |Places(after, f)| + Removed(recent, f)
    {
      PlacesSplit(before, spec.wire.path, spec.quarantine, f);
      PlacesSplit(after, spec.wire.path, spec.quarantine, f);
      SetOfCounts(before, spec, f);
      SetOfCounts(after, spec, f);
      EffectCounts(spec, before, after, deletedBefore, deletedAfter, f);
      SameElsewhere(spec, before, after, deletedBefore, deletedAfter, f);
    }
    assert spec in [spec];
  }

  lemma SameElsewhere(spec: PruneSpec, before: map<Text, NodeFile>, after: map<Text, NodeFile>,
                      deletedBefore: seq<Deletion>, deletedAfter: seq<Deletion>, f: NodeFile)
    requires Effect(spec, before, after, deletedBefore, deletedAfter)
    ensures Places(before, f) - {spec.wire.path, spec.quarantine}
        == Places(after, f) - {spec.wire.path, spec.quarantine}
  {
    hide Matches, SetOf;
  }

  lemma {:induction false} RemovedConcat(a: seq<Deletion>, b: seq<Deletion>, f: NodeFile)
    ensures Removed(a + b, f) == Removed(a, f) + Removed(b, f)
  {
    if b == [] {
      assert a + b == a;
    } else {
      RemovedConcat(a, b[..|b| - 1], f);
      assert (a + b)[..|a + b| - 1] == a + b[..|b| - 1];
    }
  }

  lemma ConservedSteps(a: map<Text, NodeFile>, b: map<Text, NodeFile>, c: map<Text, NodeFile>, x: seq<Deletion>,
                       y: seq<Deletion>, z: seq<Deletion>)
    requires |x| <= |y| <= |z| && z[..|y|] == y
    requires Conserved(a, b, y[|x|..]) && Conserved(b, c, z[|y|..])
    ensures Conserved(a, c, z[|x|..])
  {
    hide Places, Removed;
    assert z[|x|..] == y[|x|..] + z[|y|..];
    forall f: NodeFile
      ensures |Places(a, f)| == |Places(c, f)| + Removed(z[|x|..], f)
    {
      RemovedConcat(y[|x|..], z[|y|..], f);
    }
  }

  lemma ElsewhereSteps(a: map<Text, NodeFile>, b: map<Text, NodeFile>, c: map<Text, NodeFile>, specs: seq<PruneSpec>,
                       spec: PruneSpec)
    requires Elsewhere(a, b, specs) && Elsewhere(b, c, [spec]) && spec in specs
    ensures Elsewhere(a, c, specs)
  {
    forall p: Text | forall s <- specs :: p != s.wire.path && p != s.quarantine
      ensures (p in a <==> p in c) && (p in a ==> c[p] == a[p])
    {
      assert p != spec.wire.path && p != spec.quarantine;
    }
  }

  /** The files at the two paths of a request. */
  ghost function SetOf(files: map<Text, NodeFile>, spec: PruneSpec): multiset<NodeFile> {
    (if spec.wire.path in files then multiset{files[spec.wire.path]} else multiset{})
    + (if spec.quarantine in files then multiset{files[spec.quarantine]} else multiset{})
  }
}
