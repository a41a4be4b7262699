/** Which stored row may own a probed file: the indexes over the rows and the order in which they are asked. */
module Matching {
  import opened LogEntry
  import opened Sources

  /** One stored row and its id, as listed once before a run plans anything. */
  datatype Row = Row(id: Text, record: SourceRecord)

  type Inode = (nat, nat)

  /** A higher generation wins; among equals the later update. */
  predicate Outranks(a: SourceRecord, b: SourceRecord) {
    || a.provenance.generation > b.provenance.generation
    || (a.provenance.generation == b.provenance.generation && a.updatedNs > b.updatedNs)
  }

  /** The inode a row has, and those its aliases had. */
  function InodesOf(r: SourceRecord): set<Inode> {
    {(r.identity.device, r.identity.inode)} + set a <- r.aliases :: (a.device, a.inode)
  }

  function PathOf(r: SourceRecord): set<Text> {
    {r.identity.path}
  }

  /** Among the first `n` rows the index holds, for this key, one that has it and that no other outranks. */
  ghost predicate KeyOk<K(!new)>(rows: seq<Row>, n: nat, index: map<K, nat>, keys: SourceRecord -> set<K>, key: K)
    requires n <= |rows|
  {
    if key in index then
      && index[key] < n && key in keys(rows[index[key]].record)
      && forall j :: 0 <= j < n && key in keys(rows[j].record) ==> !Outranks(rows[j].record, rows[index[key]].record)
    else forall j :: 0 <= j < n ==> key !in keys(rows[j].record)
  }

  ghost predicate Indexed<K(!new)>(rows: seq<Row>, n: nat, index: map<K, nat>, keys: SourceRecord -> set<K>)
    requires n <= |rows|
  {
    forall key: K :: KeyOk(rows, n, index, keys, key)
  }

  /** What the index must hold for a key once row `i` has been entered. */
  function Entered<K>(rows: seq<Row>, i: nat, index: map<K, nat>, key: K): nat
    requires i < |rows|
  {
    if key in index && index[key] < i && !Outranks(rows[i].record, rows[index[key]].record) then index[key] else i
  }

  lemma KeyEntered<K(!new)>(rows: seq<Row>, i: nat, before: map<K, nat>, after: map<K, nat>,
                            keys: SourceRecord -> set<K>, key: K)
    requires i < |rows| && KeyOk(rows, i, before, keys, key)
    requires if key in keys(rows[i].record) then key in after && after[key] == Entered(rows, i, before, key)
             else (key in after <==> key in before) && (key in before ==> after[key] == before[key])
    ensures KeyOk(rows, i + 1, after, keys, key)
  {
  }

  /** Enter one more row under each of its keys, unless a row that it does not outrank is there already. */
  method EnterRow<K(!new, ==)>(rows: seq<Row>, i: nat, before: map<K, nat>, keys: SourceRecord -> set<K>)
    returns (index: map<K, nat>)
    requires i < |rows| && Indexed(rows, i, before, keys)
    ensures Indexed(rows, i + 1, index, keys)
  {
    hide KeyOk, Outranks;
    index := before;
    var own := keys(rows[i].record);
    var todo := own;
    while todo != {}
      invariant todo <= own
      invariant forall key: K :: key in todo || key !in own ==>
        (key in index <==> key in before) && (key in index ==> index[key] == before[key])
      invariant forall key: K :: key in own && key !in todo ==>
        key in index && index[key] == Entered(rows, i, before, key)
      decreases |todo|
    {
      var key :| key in todo;
      todo := todo - {key};
      index := index[key := Entered(rows, i, index, key)];
    }
    ghost var n := i + 1;
    forall key: K
      ensures KeyOk(rows, n, index, keys, key)
    {
      KeyEntered(rows, i, before, index, keys, key);
    }
  }

  /** Index the rows by inode, present and past, and by path; the highest-ranking row keeps each key. */
  method RecordIndexes(rows: seq<Row>) returns (byInode: map<Inode, nat>, byPath: map<Text, nat>)
    ensures Indexed(rows, |rows|, byInode, InodesOf) && Indexed(rows, |rows|, byPath, PathOf)
  {
    byInode, byPath := map[], map[];
    for i := 0 to |rows|
      invariant Indexed(rows, i, byInode, InodesOf) && Indexed(rows, i, byPath, PathOf)
    {
      byPath := EnterRow(rows, i, byPath, PathOf);
      byInode := EnterRow(rows, i, byInode, InodesOf);
    }
  }

  /** The row found under a key, if it is compatible with the probe. */
  function Compatible<K>(rows: seq<Row>, index: map<K, nat>, key: K, wire: Wire): Option<nat> {
    if key in index && index[key] < |rows| && IdentityCompatible(rows[index[key]].record, wire) then
      Some(index[key])
    else None
  }

  /**
   The row that may own a probe: the exact path and inode first, then the inode, then the path, then the row that
   was first recorded for this path. A row found by inode must also have the probe's compression.
   */
  function MatchRecord(rows: seq<Row>, byInode: map<Inode, nat>, byPath: map<Text, nat>, byId: map<Text, nat>,
                       wire: Wire, baseId: Text): Option<nat>
  {
    var atPath := Compatible(rows, byPath, wire.path, wire);
    var atInode := Compatible(rows, byInode, (wire.device, wire.inode), wire);
    if atPath.Some? && SameInode(rows[atPath.value].record.identity, wire) then atPath
    else if atInode.Some? && rows[atInode.value].record.identity.compression == wire.compression then atInode
    else if atPath.Some? then atPath
    else Compatible(rows, byId, baseId, wire)
  }

  /** A reused inode or path never lends a file the row of another task or another rotation family. */
  lemma MatchKeepsIdentity(rows: seq<Row>, byInode: map<Inode, nat>, byPath: map<Text, nat>, byId: map<Text, nat>,
                           wire: Wire, baseId: Text)
    ensures var m := MatchRecord(rows, byInode, byPath, byId, wire, baseId);
      m.Some? ==>
        && m.value < |rows|
        && var r := rows[m.value].record;
           && r.identity.profile == wire.profile && r.identity.logKind == wire.logKind
           && var own := LogicalIdentity(wire.profile, wire.logKind, wire.path);
              && LogicalIdentity(wire.profile, wire.logKind, CanonicalPath(r)) in {None, own}
              && LogicalIdentity(wire.profile, wire.logKind, r.identity.path) in {None, own}
  {
    hide LogicalIdentity, Pinned, PlainLogPath, CanonicalPath;
  }

  /** What a refreshed row is found by: its own path and inode, while no other row outranks it there. */
  lemma ExactMatchWins(rows: seq<Row>, byInode: map<Inode, nat>, byPath: map<Text, nat>, byId: map<Text, nat>,
                       wire: Wire, baseId: Text, k: nat)
    requires Indexed(rows, |rows|, byPath, PathOf) && k < |rows|
    requires rows[k].record.identity.path == wire.path && SameInode(rows[k].record.identity, wire)
    requires IdentityCompatible(rows[k].record, wire)
    requires forall j :: 0 <= j < |rows| && j != k && rows[j].record.identity.path == wire.path ==>
      Outranks(rows[k].record, rows[j].record)
    ensures MatchRecord(rows, byInode, byPath, byId, wire, baseId) == Some(k)
  {
    hide IdentityCompatible;
    assert KeyOk(rows, |rows|, byPath, PathOf, wire.path);
    assert wire.path in PathOf(rows[k].record);
  }
}
