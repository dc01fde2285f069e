/**
 * The routing-data audit for leaks: first-seen dictionaries over every audited case, and what an
 * audit without a leak blocker says about the partitions.
 */
module Partitions {

  datatype Case = Case(example: string, source: string, cluster: string)
  datatype Manifest = Manifest(partition: string, cases: seq<Case>)

  /** One audited case with the partition its manifest declares. */
  datatype Row = Row(partition: string, entry: Case)

  /** The three dependencies audited: example to partition, source to cluster, cluster to partition. */
  datatype Dependency = EXAMPLE_PARTITION | SOURCE_CLUSTER | CLUSTER_PARTITION

  datatype Blocker = DuplicatePartition(partition: string) | Broken(dependency: Dependency, key: string)

  function Key(d: Dependency, r: Row): string {
    match d
    case EXAMPLE_PARTITION => r.entry.example
    case SOURCE_CLUSTER => r.entry.source
    case CLUSTER_PARTITION => r.entry.cluster
  }

  function Value(d: Dependency, r: Row): string {
    match d
    case EXAMPLE_PARTITION => r.partition
    case SOURCE_CLUSTER => r.entry.cluster
    case CLUSTER_PARTITION => r.partition
  }

  /** The key-value pairs a dependency reads off the rows. */
  function Pairs(d: Dependency, rows: seq<Row>): seq<(string, string)> {
    seq(|rows|, i requires 0 <= i < |rows| => (Key(d, rows[i]), Value(d, rows[i])))
  }

  /** The same key with two different values. */
  ghost predicate Conflict(pairs: seq<(string, string)>, key: string) {
    exists v, w :: (key, v) in pairs && (key, w) in pairs && v != w
  }

  // ---------------------------------------------------------------- first-seen dictionaries

  /** `dict.setdefault`. */
  function SetDefault(seen: map<string, string>, key: string, value: string): map<string, string> {
    if key in seen then seen else seen[key := value]
  }

  /** `seen` knows exactly the keys so far, each with a value it came with. */
  ghost predicate SeenSoFar(seen: map<string, string>, pairs: seq<(string, string)>) {
    && (forall p :: p in pairs ==> p.0 in seen)
    && (forall key :: key in seen ==> (key, seen[key]) in pairs)
  }

  lemma SeenStep(seen: map<string, string>, pairs: seq<(string, string)>, key: string, value: string)
    requires SeenSoFar(seen, pairs)
    ensures SeenSoFar(SetDefault(seen, key, value), pairs + [(key, value)])
  {
  }

  /** Whether the value differs from the one first seen for its key. */
  predicate Disagrees(seen: map<string, string>, key: string, value: string) {
    key in seen && seen[key] != value
  }

  /** The first-seen value is enough: a key is in conflict exactly when some later value disagreed with it. */
  lemma ConflictStep(seen: map<string, string>, pairs: seq<(string, string)>, k: string, value: string, key: string)
    requires SeenSoFar(seen, pairs)
    ensures Conflict(pairs + [(k, value)], key) <==> Conflict(pairs, key) || (key == k && Disagrees(seen, k, value))
  {
  }

  // ---------------------------------------------------------------- the audit

  function RowsOf(m: Manifest): seq<Row> {
    seq(|m.cases|, i requires 0 <= i < |m.cases| => Row(m.partition, m.cases[i]))
  }

  ghost predicate Declared(ms: seq<Manifest>, partition: string) {
    exists i :: 0 <= i < |ms| && ms[i].partition == partition
  }

  /** A partition is declared by two manifests. */
  ghost predicate Repeated(ms: seq<Manifest>, partition: string) {
    exists i, j :: 0 <= i < j < |ms| && ms[i].partition == partition == ms[j].partition
  }

  /** The rows the audit reads: those of the first manifest of each partition. */
  ghost function Audited(ms: seq<Manifest>): seq<Row> {
    if ms == [] then []
    else
      var before, last := ms[..|ms| - 1], ms[|ms| - 1];
      Audited(before) + if Declared(before, last.partition) then [] else RowsOf(last)
  }

  ghost predicate LeaksExact(blockers: seq<Blocker>, rows: seq<Row>) {
    forall d, key :: Broken(d, key) in blockers <==> Conflict(Pairs(d, rows), key)
  }

  ghost predicate DuplicatesExact(blockers: seq<Blocker>, ms: seq<Manifest>) {
    forall p :: DuplicatePartition(p) in blockers <==> Repeated(ms, p)
  }

  function Noted(d: Dependency, seen: map<string, string>, key: string, value: string): seq<Blocker> {
    if Disagrees(seen, key, value) then [Broken(d, key)] else []
  }

  /** The audit's three dictionaries. */
  datatype Seen = Seen(examples: map<string, string>, sources: map<string, string>, clusters: map<string, string>)

  function Of(seen: Seen, d: Dependency): map<string, string> {
    match d
    case EXAMPLE_PARTITION => seen.examples
    case SOURCE_CLUSTER => seen.sources
    case CLUSTER_PARTITION => seen.clusters
  }

  ghost predicate AllSeen(seen: Seen, rows: seq<Row>) {
    forall d :: SeenSoFar(Of(seen, d), Pairs(d, rows))
  }

  ghost function NotedFor(seen: Seen, row: Row): seq<Blocker> {
    Noted(EXAMPLE_PARTITION, seen.examples, row.entry.example, row.partition)
    + Noted(SOURCE_CLUSTER, seen.sources, row.entry.source, row.entry.cluster)
    + Noted(CLUSTER_PARTITION, seen.clusters, row.entry.cluster, row.partition)
  }

  ghost function SeenAfter(seen: Seen, row: Row): Seen {
    Seen(SetDefault(seen.examples, row.entry.example, row.partition),
         SetDefault(seen.sources, row.entry.source, row.entry.cluster),
         SetDefault(seen.clusters, row.entry.cluster, row.partition))
  }

  lemma NotedIs(seen: Seen, row: Row, d: Dependency, key: string)
    ensures Broken(d, key) in NotedFor(seen, row) <==> key == Key(d, row) && Disagrees(Of(seen, d), key, Value(d, row))
    ensures forall p :: DuplicatePartition(p) !in NotedFor(seen, row)
  {
  }

  lemma PairsStep(d: Dependency, rows: seq<Row>, row: Row)
    ensures Pairs(d, rows + [row]) == Pairs(d, rows) + [(Key(d, row), Value(d, row))]
  {
  }

  /** Auditing one more row keeps the dictionaries and the blockers exact. */
  lemma RowAudited(seen: Seen, blockers: seq<Blocker>, rows: seq<Row>, row: Row)
    requires AllSeen(seen, rows) && LeaksExact(blockers, rows)
    ensures AllSeen(SeenAfter(seen, row), rows + [row])
    ensures LeaksExact(blockers + NotedFor(seen, row), rows + [row])
    ensures forall p :: DuplicatePartition(p) in blockers + NotedFor(seen, row) <==> DuplicatePartition(p) in blockers
  {
    forall d
      ensures SeenSoFar(Of(SeenAfter(seen, row), d), Pairs(d, rows + [row]))
    {
      PairsStep(d, rows, row);
      SeenStep(Of(seen, d), Pairs(d, rows), Key(d, row), Value(d, row));
    }
    forall d, key
      ensures Broken(d, key) in blockers + NotedFor(seen, row) <==> Conflict(Pairs(d, rows + [row]), key)
    {
      PairsStep(d, rows, row);
      NotedIs(seen, row, d, key);
      assert SeenSoFar(Of(seen, d), Pairs(d, rows));
      ConflictStep(Of(seen, d), Pairs(d, rows), Key(d, row), Value(d, row), key);
    }
    NotedIs(seen, row, EXAMPLE_PARTITION, "");
  }

  /** The audit is exact for the manifests read so far. */
  ghost predicate ExactFor(ms: seq<Manifest>, declared: set<string>, seen: Seen, blockers: seq<Blocker>) {
    && (forall p :: p in declared <==> Declared(ms, p))
    && AllSeen(seen, Audited(ms))
    && LeaksExact(blockers, Audited(ms))
    && DuplicatesExact(blockers, ms)
  }

  /** The audit's loop over manifests; a repeated partition is named and skipped. */
  method AuditPartitions(manifests: seq<Manifest>) returns (blockers: seq<Blocker>)
    ensures LeaksExact(blockers, Audited(manifests)) && DuplicatesExact(blockers, manifests)
  {
    blockers := [];
    var byPartition: map<string, Manifest> := map[];
    var seen := Seen(map[], map[], map[]);
    NothingRead(seen);
    for n := 0 to |manifests|
      invariant ExactFor(manifests[..n], byPartition.Keys, seen, blockers)
    {
      var manifest := manifests[n];
      ghost var before := manifests[..n];
      assert manifests[..n + 1] == before + [manifest];
      if manifest.partition in byPartition {
        DuplicateKeepsExact(before, manifest, byPartition.Keys, seen, blockers);
        blockers := blockers + [DuplicatePartition(manifest.partition)];
      } else {
        ghost var seen0, blockers0 := seen, blockers;
        seen, blockers := AuditCases(manifest, seen, blockers, Audited(before));
        NewPartitionKeepsExact(before, manifest, byPartition.Keys, seen0, blockers0, seen, blockers);
        byPartition := byPartition[manifest.partition := manifest];
      }
    }
    assert manifests[..|manifests|] == manifests;
  }

  /** The inner loop over one manifest's cases. */
  method AuditCases(manifest: Manifest, seen: Seen, blockers: seq<Blocker>, ghost rows: seq<Row>)
    returns (seen': Seen, blockers': seq<Blocker>)
    requires AllSeen(seen, rows) && LeaksExact(blockers, rows)
    ensures AllSeen(seen', rows + RowsOf(manifest)) && LeaksExact(blockers', rows + RowsOf(manifest))
    ensures forall p :: DuplicatePartition(p) in blockers' <==> DuplicatePartition(p) in blockers
  {
    seen', blockers' := seen, blockers;
    assert RowsOf(manifest)[..0] == [] && rows + [] == rows;
    for i := 0 to |manifest.cases|
      invariant AllSeen(seen', rows + RowsOf(manifest)[..i]) && LeaksExact(blockers', rows + RowsOf(manifest)[..i])
      invariant forall p :: DuplicatePartition(p) in blockers' <==> DuplicatePartition(p) in blockers
    {
      ghost var done := rows + RowsOf(manifest)[..i];
      RowAudited(seen', blockers', done, RowsOf(manifest)[i]);
      NextRow(rows, manifest, i);
      seen', blockers' := AuditCase(manifest.partition, manifest.cases[i], seen', blockers');
    }
    assert RowsOf(manifest)[..|manifest.cases|] == RowsOf(manifest);
  }

  lemma NextRow(rows: seq<Row>, m: Manifest, i: nat)
    requires i < |m.cases|
    ensures rows + RowsOf(m)[..i + 1] == rows + RowsOf(m)[..i] + [RowsOf(m)[i]]
  {
  }

  /** One case: its example, its source and its cluster, each against the value first seen. */
  method AuditCase(partition: string, entry: Case, seen: Seen, blockers: seq<Blocker>)
    returns (seen': Seen, blockers': seq<Blocker>)
    ensures seen' == SeenAfter(seen, Row(partition, entry))
    ensures blockers' == blockers + NotedFor(seen, Row(partition, entry))
  {
    blockers' := blockers;
    var examples := SetDefault(seen.examples, entry.example, partition);
    if examples[entry.example] != partition {
      blockers' := blockers' + [Broken(EXAMPLE_PARTITION, entry.example)];
    }
    var sources := SetDefault(seen.sources, entry.source, entry.cluster);
    if sources[entry.source] != entry.cluster {
      blockers' := blockers' + [Broken(SOURCE_CLUSTER, entry.source)];
    }
    var clusters := SetDefault(seen.clusters, entry.cluster, partition);
    if clusters[entry.cluster] != partition {
      blockers' := blockers' + [Broken(CLUSTER_PARTITION, entry.cluster)];
    }
    seen' := Seen(examples, sources, clusters);
  }

  lemma NothingRead(seen: Seen)
    requires seen == Seen(map[], map[], map[])
    ensures ExactFor([], {}, seen, [])
  {
  }

  lemma DuplicateKeepsExact(before: seq<Manifest>, m: Manifest, declared: set<string>, seen: Seen, blockers: seq<Blocker>)
    requires ExactFor(before, declared, seen, blockers) && m.partition in declared
    ensures ExactFor(before + [m], declared, seen, blockers + [DuplicatePartition(m.partition)])
  {
    AuditedStep(before, m);
    assert Audited(before + [m]) == Audited(before);
    DuplicateNoted(before, m, blockers);
    forall p
      ensures p in declared <==> Declared(before + [m], p)
    {
      PartitionsStep(before, m, p);
    }
  }

  lemma DuplicateNoted(before: seq<Manifest>, m: Manifest, blockers: seq<Blocker>)
    requires DuplicatesExact(blockers, before) && Declared(before, m.partition)
    ensures DuplicatesExact(blockers + [DuplicatePartition(m.partition)], before + [m])
    ensures forall d, key :: Broken(d, key) in blockers + [DuplicatePartition(m.partition)] <==> Broken(d, key) in blockers
  {
    var out := blockers + [DuplicatePartition(m.partition)];
    forall p
      ensures DuplicatePartition(p) in out <==> Repeated(before + [m], p)
    {
      PartitionsStep(before, m, p);
    }
  }

  lemma NewPartitionKeepsExact(before: seq<Manifest>, m: Manifest, declared: set<string>,
                               seen: Seen, blockers: seq<Blocker>, seen': Seen, blockers': seq<Blocker>)
    requires ExactFor(before, declared, seen, blockers) && m.partition !in declared
    requires AllSeen(seen', Audited(before) + RowsOf(m)) && LeaksExact(blockers', Audited(before) + RowsOf(m))
    requires forall p :: DuplicatePartition(p) in blockers' <==> DuplicatePartition(p) in blockers
    ensures ExactFor(before + [m], declared + {m.partition}, seen', blockers')
  {
    AuditedStep(before, m);
    forall p {
      PartitionsStep(before, m, p);
    }
  }

  lemma AuditedStep(before: seq<Manifest>, m: Manifest)
    ensures Audited(before + [m]) == Audited(before) + if Declared(before, m.partition) then [] else RowsOf(m)
  {
  }

  lemma PartitionsStep(before: seq<Manifest>, m: Manifest, p: string)
    ensures Declared(before + [m], p) <==> Declared(before, p) || p == m.partition
    ensures Repeated(before + [m], p) <==> Repeated(before, p) || (p == m.partition && Declared(before, p))
  {
    var all, n := before + [m], |before|;
    assert all[n] == m && forall i :: 0 <= i < n ==> all[i] == before[i];
  }

  // ---------------------------------------------------------------- what a clean audit means

  ghost predicate DistinctPartitions(ms: seq<Manifest>) {
    forall i, j :: 0 <= i < j < |ms| ==> ms[i].partition != ms[j].partition
  }

  /** Nothing crosses partitions: no example, no source and no cluster, and a source stays in one cluster. */
  ghost predicate Isolated(ms: seq<Manifest>) {
    && DistinctPartitions(ms)
    && forall r, s :: InSome(ms, r) && InSome(ms, s) ==> Apart(r, s)
  }

  ghost predicate Apart(r: Row, s: Row) {
    && (r.partition != s.partition ==>
          r.entry.example != s.entry.example && r.entry.source != s.entry.source && r.entry.cluster != s.entry.cluster)
    && (r.entry.source == s.entry.source ==> r.entry.cluster == s.entry.cluster)
  }

  /** The row is a case of some manifest, duplicates included. */
  ghost predicate InSome(ms: seq<Manifest>, r: Row) {
    exists i :: 0 <= i < |ms| && r in RowsOf(ms[i])
  }

  lemma {:induction false} AuditedIsAll(ms: seq<Manifest>, r: Row)
    requires DistinctPartitions(ms)
    ensures r in Audited(ms) <==> InSome(ms, r)
  {
    if ms != [] {
      var before, last := ms[..|ms| - 1], ms[|ms| - 1];
      AuditedIsAll(before, r);
      assert !Declared(before, last.partition);
      assert ms[|ms| - 1] == last && forall i :: 0 <= i < |before| ==> ms[i] == before[i];
    }
  }

  /**
   * The audit raises no leak blocker exactly when the manifests declare distinct partitions that share
   * no example, no source and no cluster, and no source is split over clusters.
   */
  lemma CleanIffIsolated(ms: seq<Manifest>, blockers: seq<Blocker>)
    requires LeaksExact(blockers, Audited(ms)) && DuplicatesExact(blockers, ms)
    ensures blockers == [] <==> Isolated(ms)
  {
    if blockers == [] {
      NoBlockerIsolates(ms, blockers);
    } else if Isolated(ms) {
      IsolatedHasNoBlocker(ms, blockers, blockers[0]);
    }
  }

  lemma NoBlockerIsolates(ms: seq<Manifest>, blockers: seq<Blocker>)
    requires LeaksExact(blockers, Audited(ms)) && DuplicatesExact(blockers, ms) && blockers == []
    ensures Isolated(ms)
  {
    forall i, j | 0 <= i < j < |ms|
      ensures ms[i].partition != ms[j].partition
    {
      assert DuplicatePartition(ms[i].partition) !in blockers;
    }
    forall r, s | InSome(ms, r) && InSome(ms, s)
      ensures Apart(r, s)
    {
      AuditedIsAll(ms, r);
      AuditedIsAll(ms, s);
      forall d
        ensures Key(d, r) == Key(d, s) ==> Value(d, r) == Value(d, s)
      {
        PairOf(d, Audited(ms), r);
        PairOf(d, Audited(ms), s);
        assert Broken(d, Key(d, r)) !in blockers;
      }
      assert Key(EXAMPLE_PARTITION, r) == Key(EXAMPLE_PARTITION, s) ==> r.partition == s.partition;
      assert Key(SOURCE_CLUSTER, r) == Key(SOURCE_CLUSTER, s) ==> r.entry.cluster == s.entry.cluster;
      assert Key(CLUSTER_PARTITION, r) == Key(CLUSTER_PARTITION, s) ==> r.partition == s.partition;
    }
  }

  lemma PairOf(d: Dependency, rows: seq<Row>, r: Row)
    requires r in rows
    ensures (Key(d, r), Value(d, r)) in Pairs(d, rows)
  {
    var i :| 0 <= i < |rows| && rows[i] == r;
    assert Pairs(d, rows)[i] == (Key(d, r), Value(d, r));
  }

  lemma AgreeingRows(d: Dependency, rows: seq<Row>, key: string)
    requires forall r, s :: r in rows && s in rows && Key(d, r) == Key(d, s) ==> Value(d, r) == Value(d, s)
    ensures !Conflict(Pairs(d, rows), key)
  {
  }

  lemma IsolatedHasNoBlocker(ms: seq<Manifest>, blockers: seq<Blocker>, b: Blocker)
    requires LeaksExact(blockers, Audited(ms)) && DuplicatesExact(blockers, ms) && Isolated(ms)
    ensures b !in blockers
  {
    if b.Broken? {
      var d, rows := b.dependency, Audited(ms);
      forall r, s | r in rows && s in rows && Key(d, r) == Key(d, s)
        ensures Value(d, r) == Value(d, s)
      {
        AuditedIsAll(ms, r);
        AuditedIsAll(ms, s);
        assert Apart(r, s);
      }
      AgreeingRows(d, rows, b.key);
    }
  }
}
