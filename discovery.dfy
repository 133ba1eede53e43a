/**
 * The explorer's discovery bookkeeping (core/explorer/discovery.go).
 *
 * The overlay-network client, the ledger and the NodeData decoder are
 * external: what they return for a token becomes a `Connection` input, and a
 * ledger storage sample is a map from key to the decode results of its values.
 * The classifier and the NetworkID extraction are functions; the scanner, the
 * per-token pass and the eviction sweep are methods proved against the
 * specification functions below.
 */
module Discovery {
  import opened Wrappers
  import opened GoStrings

  // ---------------------------------------------------------------------------
  // Data model
  // ---------------------------------------------------------------------------

  /** The two well-known ledger key markers, p2p.WorkerID and p2p.FederatedID. */
  datatype Markers = Markers(worker: string, federated: string)

  /** The `Type` field of a cluster: "worker" or "federated". */
  datatype ClusterType = Worker | Federated

  /** One discovered cluster: the online worker IDs, its type and its network. */
  datatype ClusterData = ClusterData(workers: seq<string>, kind: ClusterType, networkID: string)

  /** A decoded presence record: an identifier and the online flag. */
  datatype NodeData = NodeData(id: string, online: bool)

  /** A raw ledger value as `NodeData.Unmarshal` sees it: `None` when decoding fails. */
  type RawValue = Option<NodeData>

  /** One sample of `ledger.LastBlock().Storage`: key to the values stored under it. */
  type Storage = map<string, seq<RawValue>>

  /**
   * What the overlay network does for one token during one pass: creating the
   * node, starting it or getting its ledger fails, or the ledger is reachable
   * and yields the storage samples taken before the per-token deadline.
   */
  datatype Connection =
    | NodeFailed
    | StartFailed
    | LedgerFailed
    | Connected(samples: seq<Storage>)

  /** Go's `time.Second`, in nanoseconds. */
  const Second: int := 1_000_000_000

  // ---------------------------------------------------------------------------
  // Key classification (discovery.go:177-194)
  // ---------------------------------------------------------------------------

  /** `isWorkerCluster`. */
  predicate IsWorkerKey(m: Markers, key: string) {
    key == m.worker || (Contains(key, "_") && Contains(key, m.worker))
  }

  /** `isFederatedCluster`. */
  predicate IsFederatedKey(m: Markers, key: string) {
    key == m.federated || (Contains(key, "_") && Contains(key, m.federated))
  }

  /** The `switch` on the two tests: the worker test is taken first. */
  function Classify(m: Markers, key: string): Option<ClusterType> {
    if IsWorkerKey(m, key) then Some(Worker)
    else if IsFederatedKey(m, key) then Some(Federated)
    else None
  }

  /** `cd.NetworkID`: the text before the first '_' when there is one, else "". */
  function NetworkID(key: string): string {
    if Contains(key, "_") then BeforeFirst(key, '_') else ""
  }

  /** A key is scoped when it contains '_' and `marker` occurs in it as a substring. */
  ghost predicate ScopedOrEqual(key: string, marker: string) {
    key == marker || ('_' in key && exists i :: OccursAt(key, marker, i))
  }

  /**
   * Classification stated with substring occurrences: a key is a worker key iff
   * it equals the worker marker or contains '_' and the marker; otherwise the
   * same rule with the federated marker; otherwise it is ignored.
   */
  lemma ClassifyByOccurrence(m: Markers, key: string)
    ensures Classify(m, key) == Some(Worker) <==> ScopedOrEqual(key, m.worker)
    ensures Classify(m, key) == Some(Federated) <==>
              !ScopedOrEqual(key, m.worker) && ScopedOrEqual(key, m.federated)
    ensures Classify(m, key) == None <==>
              !ScopedOrEqual(key, m.worker) && !ScopedOrEqual(key, m.federated)
  {
    ContainsChar(key, '_');
    ContainsIffOccurs(key, m.worker);
    ContainsIffOccurs(key, m.federated);
  }

  /**
   * NetworkID is "" for a key without '_'; otherwise it is the longest prefix of
   * the key without '_', and the key continues with '_' right after it.
   */
  lemma NetworkIDSpec(key: string)
    ensures '_' !in key ==> NetworkID(key) == ""
    ensures '_' in key ==>
              var r := NetworkID(key);
              |r| < |key| && r == key[..|r|] && '_' !in r && key[|r|] == '_'
  {
    ContainsChar(key, '_');
    BeforeFirstShort(key, '_');
  }

  /** A key without '_' is classified only when it equals one of the markers. */
  lemma UnscopedKey(m: Markers, key: string)
    requires '_' !in key
    ensures Classify(m, key).Some? <==> key == m.worker || key == m.federated
    ensures key == m.worker ==> Classify(m, key) == Some(Worker)
    ensures NetworkID(key) == ""
  {
    ContainsChar(key, '_');
  }

  /** A key `net_<worker marker>` names a worker cluster of network `net`. */
  lemma ScopedWorkerKey(m: Markers, net: string)
    requires '_' !in net
    ensures Classify(m, net + "_" + m.worker) == Some(Worker)
    ensures NetworkID(net + "_" + m.worker) == net
  {
    var key := net + "_" + m.worker;
    assert key == net + "_" + m.worker + [];
    ContainsInfix(net + "_", m.worker, []);
    assert key == net + "_" + m.worker;
    ContainsInfix(net, "_", m.worker);
    BeforeFirstOfJoined(net, '_', m.worker);
    assert net + ['_'] + m.worker == key;
  }

  /** A key `net_<federated marker>` that does not also contain the worker marker. */
  lemma ScopedFederatedKey(m: Markers, net: string)
    requires '_' !in net
    requires !Contains(net + "_" + m.federated, m.worker)
    ensures Classify(m, net + "_" + m.federated) == Some(Federated)
    ensures NetworkID(net + "_" + m.federated) == net
  {
    var key := net + "_" + m.federated;
    assert key == net + "_" + m.federated + [];
    ContainsInfix(net + "_", m.federated, []);
    ContainsInfix(net, "_", m.federated);
    BeforeFirstOfJoined(net, '_', m.federated);
    assert net + ['_'] + m.federated == key;
  }

  // ---------------------------------------------------------------------------
  // Worker aggregation for one key (discovery.go:196-212)
  // ---------------------------------------------------------------------------

  /** The IDs, in value order, of the values that decode and are online. */
  function OnlineIDs(values: seq<RawValue>): seq<string> {
    if values == [] then []
    else
      var last := values[|values| - 1];
      OnlineIDs(values[..|values| - 1]) + (if last.Some? && last.value.online then [last.value.id] else [])
  }

  /** The aggregation keeps value order: it distributes over concatenation. */
  lemma {:induction false} OnlineIDsAppend(a: seq<RawValue>, b: seq<RawValue>)
    ensures OnlineIDs(a + b) == OnlineIDs(a) + OnlineIDs(b)
    decreases |b|
  {
    if b == [] {
      assert a + b == a;
    } else {
      var b' := b[..|b| - 1];
      assert (a + b)[..|a + b| - 1] == a + b';
      OnlineIDsAppend(a, b');
    }
  }

  /** An ID is collected iff some value decodes to an online record with that ID. */
  lemma {:induction false} OnlineIDsMembers(values: seq<RawValue>, id: string)
    ensures id in OnlineIDs(values) <==>
              exists i :: 0 <= i < |values| && values[i] == Some(NodeData(id, true))
    decreases |values|
  {
    if values != [] {
      var init := values[..|values| - 1];
      OnlineIDsMembers(init, id);
      if exists i :: 0 <= i < |init| && init[i] == Some(NodeData(id, true)) {
        var i :| 0 <= i < |init| && init[i] == Some(NodeData(id, true));
        assert values[i] == init[i];
      }
      if exists i :: 0 <= i < |values| && values[i] == Some(NodeData(id, true)) {
        var i :| 0 <= i < |values| && values[i] == Some(NodeData(id, true));
        if i < |init| {
          assert init[i] == values[i];
        }
      }
    }
  }

  /** No ID is collected iff no value decodes to an online record. */
  lemma {:induction false} OnlineIDsEmpty(values: seq<RawValue>)
    ensures OnlineIDs(values) == [] <==>
              forall i :: 0 <= i < |values| ==> values[i].None? || !values[i].value.online
    ensures |OnlineIDs(values)| <= |values|
    decreases |values|
  {
    if values != [] {
      var init := values[..|values| - 1];
      OnlineIDsEmpty(init);
      assert forall i :: 0 <= i < |init| ==> init[i] == values[i];
    }
  }

  /** The cluster one key contributes to a sample, if any. */
  function KeyCluster(m: Markers, key: string, values: seq<RawValue>): Option<ClusterData> {
    match Classify(m, key)
    case None => None
    case Some(kind) =>
      var workers := OnlineIDs(values);
      if workers == [] then None else Some(ClusterData(workers, kind, NetworkID(key)))
  }

  /** `c` is a cluster the scanner may report for `key`. */
  ghost predicate ClusterFor(m: Markers, key: string, c: ClusterData) {
    && Classify(m, key) == Some(c.kind)
    && c.networkID == NetworkID(key)
    && c.workers != []
  }

  /**
   * A key yields a cluster iff it is classified and at least one value decodes
   * as online; the cluster then lists exactly the online IDs.
   */
  lemma KeyClusterSpec(m: Markers, key: string, values: seq<RawValue>)
    ensures KeyCluster(m, key, values).Some? <==>
              Classify(m, key).Some? &&
              exists i :: 0 <= i < |values| && values[i].Some? && values[i].value.online
    ensures KeyCluster(m, key, values).Some? ==>
              var c := KeyCluster(m, key, values).value;
              ClusterFor(m, key, c) && c.workers == OnlineIDs(values)
  {
    OnlineIDsEmpty(values);
  }

  /** Values [online A, offline B] give Workers [A]. */
  lemma OnlineThenOffline(m: Markers, net: string, a: string, b: string)
    requires '_' !in net
    ensures KeyCluster(m, net + "_" + m.worker, [Some(NodeData(a, true)), Some(NodeData(b, false))])
            == Some(ClusterData([a], Worker, net))
  {
    ScopedWorkerKey(m, net);
    var vs: seq<RawValue> := [Some(NodeData(a, true)), Some(NodeData(b, false))];
    assert vs[..|vs| - 1] == vs[..1] == [Some(NodeData(a, true))];
    assert vs[..1][..0] == [];
    assert OnlineIDs(vs[..1]) == [a];
    assert OnlineIDs(vs) == [a];
  }

  /** A key whose values are all offline yields nothing. */
  lemma AllOfflineYieldsNothing(m: Markers, key: string, values: seq<RawValue>)
    requires forall i :: 0 <= i < |values| ==> values[i].Some? && !values[i].value.online
    ensures KeyCluster(m, key, values) == None
  {
    OnlineIDsEmpty(values);
  }

  // ---------------------------------------------------------------------------
  // Ledger scanning across samples (discovery.go:155-216)
  // ---------------------------------------------------------------------------

  /** The clusters one storage sample contributes, by key. */
  function SampleClusters(m: Markers, sample: Storage): map<string, ClusterData> {
    SampleClustersOn(m, sample, sample.Keys)
  }

  /** The clusters the keys of `keys` contribute to a sample. */
  function SampleClustersOn(m: Markers, sample: Storage, keys: set<string>): map<string, ClusterData> {
    Kept(sample, keys, (k: string, values: seq<RawValue>) => KeyCluster(m, k, values))
  }

  /** The keys of `keys` present in `sample` for which `f` yields a cluster, mapped to that cluster. */
  function Kept(sample: Storage, keys: set<string>, f: (string, seq<RawValue>) -> Option<ClusterData>)
    : map<string, ClusterData>
  {
    map k | k in keys && k in sample && f(k, sample[k]).Some? :: f(k, sample[k]).value
  }

  /** Keeping one more key changes the result at that key only. */
  lemma KeptStep(sample: Storage, keys: set<string>, f: (string, seq<RawValue>) -> Option<ClusterData>, d: string)
    requires d in sample
    ensures var r := f(d, sample[d]);
            Kept(sample, keys + {d}, f) == if r.Some? then Kept(sample, keys, f)[d := r.value] else Kept(sample, keys, f)
  {
    var r := f(d, sample[d]);
    var a := Kept(sample, keys + {d}, f);
    var b := Kept(sample, keys, f);
    if r.Some? {
      assert a.Keys == b.Keys + {d};
      assert forall k :: k in a ==> a[k] == b[d := r.value][k];
    } else {
      assert a.Keys == b.Keys;
    }
  }

  /** Scanning one more key changes the contributed clusters at that key only. */
  lemma SampleClustersOnStep(m: Markers, sample: Storage, keys: set<string>, d: string)
    requires d in sample
    ensures var r := KeyCluster(m, d, sample[d]);
            SampleClustersOn(m, sample, keys + {d}) ==
              if r.Some? then SampleClustersOn(m, sample, keys)[d := r.value] else SampleClustersOn(m, sample, keys)
  {
    KeptStep(sample, keys, (k: string, values: seq<RawValue>) => KeyCluster(m, k, values), d);
  }

  /** Updating a union at a key is updating its right operand there. */
  lemma UnionUpdate<K, V>(x: map<K, V>, y: map<K, V>, k: K, v: V)
    ensures (x + y)[k := v] == x + y[k := v]
  {
  }

  /** The `clusters` map after scanning the samples in order: later samples overwrite. */
  function ScanAll(m: Markers, samples: seq<Storage>): map<string, ClusterData> {
    if samples == [] then map[]
    else ScanAll(m, samples[..|samples| - 1]) + SampleClusters(m, samples[|samples| - 1])
  }

  /** Maps laid over each other in order: a later map overwrites an earlier one. */
  function Overlay(maps: seq<map<string, ClusterData>>): map<string, ClusterData>
    decreases |maps|
  {
    if maps == [] then map[] else Overlay(maps[..|maps| - 1]) + maps[|maps| - 1]
  }

  /** An overlay holds a key iff one of its maps does. */
  lemma {:induction false} OverlayKeys(maps: seq<map<string, ClusterData>>, k: string)
    ensures k in Overlay(maps) <==> exists i :: 0 <= i < |maps| && k in maps[i]
    decreases |maps|
  {
    if maps != [] {
      var n := |maps| - 1;
      var init := maps[..n];
      OverlayKeys(init, k);
      if exists i :: 0 <= i < |init| && k in init[i] {
        var i :| 0 <= i < |init| && k in init[i];
        assert maps[i] == init[i];
      }
      if exists i :: 0 <= i < |maps| && k in maps[i] {
        var i :| 0 <= i < |maps| && k in maps[i];
        if i < n {
          assert init[i] == maps[i];
        }
      }
    }
  }

  /** An overlay's value at a key comes from the last map holding that key. */
  lemma {:induction false} OverlayLatest(maps: seq<map<string, ClusterData>>, k: string)
    requires k in Overlay(maps)
    ensures exists i :: 0 <= i < |maps| && k in maps[i] && Overlay(maps)[k] == maps[i][k] &&
                        forall j :: i < j < |maps| ==> k !in maps[j]
    decreases |maps|
  {
    var n := |maps| - 1;
    var init := maps[..n];
    if k !in maps[n] {
      OverlayLatest(init, k);
      var i :| 0 <= i < |init| && k in init[i] && Overlay(init)[k] == init[i][k] &&
               forall j :: i < j < |init| ==> k !in init[j];
      assert maps[i] == init[i];
      forall j | i < j < |maps| ensures k !in maps[j] {
        if j < n {
          assert maps[j] == init[j];
        }
      }
    }
  }

  /** The clusters each sample contributes, sample by sample. */
  function SampleMaps(m: Markers, samples: seq<Storage>): (r: seq<map<string, ClusterData>>)
    ensures |r| == |samples|
    ensures forall i :: 0 <= i < |samples| ==> r[i] == SampleClusters(m, samples[i])
  {
    seq(|samples|, i requires 0 <= i < |samples| => SampleClusters(m, samples[i]))
  }

  /** The scan is the overlay of the samples' contributions. */
  lemma {:induction false} ScanAllOverlay(m: Markers, samples: seq<Storage>)
    ensures ScanAll(m, samples) == Overlay(SampleMaps(m, samples))
    decreases |samples|
  {
    if samples != [] {
      var n := |samples| - 1;
      ScanAllOverlay(m, samples[..n]);
      assert SampleMaps(m, samples)[..n] == SampleMaps(m, samples[..n]);
    }
  }

  /** `k` yields a cluster in sample `i`. */
  ghost predicate FoundIn(m: Markers, samples: seq<Storage>, k: string, i: int) {
    0 <= i < |samples| && k in SampleClusters(m, samples[i])
  }

  /** The accumulated map holds a key iff some sample yielded a cluster for it. */
  lemma ScanAllKeys(m: Markers, samples: seq<Storage>, k: string)
    ensures k in ScanAll(m, samples) <==> exists i :: FoundIn(m, samples, k, i)
  {
    var maps := SampleMaps(m, samples);
    ScanAllOverlay(m, samples);
    OverlayKeys(maps, k);
    if exists i :: 0 <= i < |maps| && k in maps[i] {
      var i :| 0 <= i < |maps| && k in maps[i];
      assert FoundIn(m, samples, k, i);
    }
    if exists i :: FoundIn(m, samples, k, i) {
      var i :| FoundIn(m, samples, k, i);
      assert k in maps[i];
    }
  }

  /**
   * A key's accumulated cluster is the one of the LAST sample that yielded a
   * cluster for it: a later all-offline sample does not remove an earlier entry.
   */
  lemma ScanAllLatest(m: Markers, samples: seq<Storage>, k: string)
    requires k in ScanAll(m, samples)
    ensures exists i :: FoundIn(m, samples, k, i) &&
                        ScanAll(m, samples)[k] == SampleClusters(m, samples[i])[k] &&
                        forall j :: i < j < |samples| ==> !FoundIn(m, samples, k, j)
  {
    var maps := SampleMaps(m, samples);
    ScanAllOverlay(m, samples);
    OverlayLatest(maps, k);
    var i :| 0 <= i < |maps| && k in maps[i] && Overlay(maps)[k] == maps[i][k] &&
             forall j :: i < j < |maps| ==> k !in maps[j];
    assert FoundIn(m, samples, k, i);
    forall j | i < j < |samples| ensures !FoundIn(m, samples, k, j) {
      assert k !in maps[j];
    }
  }

  /** Every accumulated cluster is well formed for its key; in particular its Workers are non-empty. */
  lemma ScanAllClusters(m: Markers, samples: seq<Storage>)
    ensures forall k :: k in ScanAll(m, samples) ==> ClusterFor(m, k, ScanAll(m, samples)[k])
  {
    forall k | k in ScanAll(m, samples)
      ensures ClusterFor(m, k, ScanAll(m, samples)[k])
    {
      ScanAllLatest(m, samples, k);
      var i :| FoundIn(m, samples, k, i) && ScanAll(m, samples)[k] == SampleClusters(m, samples[i])[k];
      KeyClusterSpec(m, k, samples[i][k]);
    }
  }

  /** A key that no marker rule classifies never produces a cluster. */
  lemma UnclassifiedNeverReported(m: Markers, samples: seq<Storage>, key: string)
    requires Classify(m, key) == None
    ensures key !in ScanAll(m, samples)
  {
    ScanAllClusters(m, samples);
  }

  /** Go's `hasWorkers`: some collected cluster has a worker. */
  predicate HasWorkers(clusters: map<string, ClusterData>) {
    exists k :: k in clusters && clusters[k].workers != []
  }

  /** Because empty clusters are dropped, `hasWorkers` is "some cluster was collected". */
  lemma HasWorkersIffNonEmpty(m: Markers, samples: seq<Storage>)
    ensures HasWorkers(ScanAll(m, samples)) <==> exists k :: k in ScanAll(m, samples)
  {
    ScanAllClusters(m, samples);
  }

  /** `order` lists every key of `keys` exactly once. */
  ghost predicate Enumerates(order: seq<string>, keys: set<string>) {
    && |order| == |keys|
    && (forall i, j :: 0 <= i < j < |order| ==> order[i] != order[j])
    && (forall k :: k in keys <==> k in order)
  }

  /** `s` holds the clusters of the map in the key order `order`. */
  ghost predicate ListedBy(s: seq<ClusterData>, clusters: map<string, ClusterData>, order: seq<string>) {
    Enumerates(order, clusters.Keys) && |order| == |s| &&
      forall i :: 0 <= i < |s| ==> s[i] == clusters[order[i]]
  }

  /** `s` holds the clusters of the map, each once, in some key order. */
  ghost predicate Lists(s: seq<ClusterData>, clusters: map<string, ClusterData>) {
    exists order :: ListedBy(s, clusters, order)
  }

  /** A listing has one element per key. */
  lemma ListsLength(s: seq<ClusterData>, clusters: map<string, ClusterData>)
    requires Lists(s, clusters)
    ensures |s| == |clusters.Keys|
  {
    var order :| ListedBy(s, clusters, order);
  }

  /** Every cluster of the map appears in a listing of it. */
  lemma ListsCovers(s: seq<ClusterData>, clusters: map<string, ClusterData>, k: string)
    requires Lists(s, clusters) && k in clusters
    ensures exists i :: 0 <= i < |s| && s[i] == clusters[k]
  {
    var order :| ListedBy(s, clusters, order);
    assert k in order;
    var i :| 0 <= i < |order| && order[i] == k;
    assert s[i] == clusters[k];
  }

  /** Every element of a listing is a cluster of the map. */
  lemma ListsMember(s: seq<ClusterData>, clusters: map<string, ClusterData>, i: int)
    requires Lists(s, clusters) && 0 <= i < |s|
    ensures exists k :: k in clusters && s[i] == clusters[k]
  {
    var order :| ListedBy(s, clusters, order);
    assert order[i] in clusters;
  }

  /** A listing has a cluster with workers iff the map has one (Go's `hasWorkers`). */
  lemma ListsHasWorkers(s: seq<ClusterData>, clusters: map<string, ClusterData>)
    requires Lists(s, clusters)
    ensures (exists i :: 0 <= i < |s| && s[i].workers != []) <==> HasWorkers(clusters)
  {
    if exists i :: 0 <= i < |s| && s[i].workers != [] {
      var i :| 0 <= i < |s| && s[i].workers != [];
      ListsMember(s, clusters, i);
      var k :| k in clusters && s[i] == clusters[k];
      assert clusters[k].workers != [];
    }
    if HasWorkers(clusters) {
      var k :| k in clusters && clusters[k].workers != [];
      ListsCovers(s, clusters, k);
      var i :| 0 <= i < |s| && s[i] == clusters[k];
      assert s[i].workers != [];
    }
  }

  /** The listing of a one-entry map is that entry alone. */
  lemma ListsSingleton(s: seq<ClusterData>, k: string, c: ClusterData)
    requires Lists(s, map[k := c])
    ensures s == [c]
  {
    var cl := map[k := c];
    assert cl.Keys == {k};
    var order :| ListedBy(s, cl, order);
    assert |order| == 1;
    assert order[0] in cl.Keys;
  }

  /**
   * Scans the `Workers` of one key (discovery.go:196-208): values that fail to
   * decode are skipped, online IDs are appended in order.
   */
  method CollectWorkers(values: seq<RawValue>) returns (workers: seq<string>, atLeastOneWorker: bool)
    ensures workers == OnlineIDs(values)
    ensures atLeastOneWorker <==> exists i :: 0 <= i < |values| && values[i].Some? && values[i].value.online
  {
    workers, atLeastOneWorker := [], false;
    for n := 0 to |values|
      invariant workers == OnlineIDs(values[..n])
      invariant atLeastOneWorker <==> exists i :: 0 <= i < n && values[i].Some? && values[i].value.online
    {
      assert values[..n + 1][..n] == values[..n];
      var v := values[n];
      if v.None? {
        continue;
      }
      if v.value.online {
        atLeastOneWorker := true;
        workers := workers + [v.value.id];
      }
    }
    assert values[..|values|] == values;
  }

  /** Classifies one key and aggregates its values (discovery.go:175-212). */
  method ScanKey(m: Markers, key: string, values: seq<RawValue>) returns (cd: Option<ClusterData>)
    ensures cd == KeyCluster(m, key, values)
  {
    var isWorkerCluster := key == m.worker || (Contains(key, "_") && Contains(key, m.worker));
    var isFederatedCluster := key == m.federated || (Contains(key, "_") && Contains(key, m.federated));
    var kind: ClusterType;
    if isWorkerCluster {
      kind := Worker;
    } else if isFederatedCluster {
      kind := Federated;
    } else {
      return None;
    }
    var networkID := "";
    if Contains(key, "_") {
      networkID := BeforeFirst(key, '_');
    }
    var workers, atLeastOneWorker := CollectWorkers(values);
    OnlineIDsEmpty(values);
    if atLeastOneWorker {
      cd := Some(ClusterData(workers, kind, networkID));
    } else {
      cd := None;
    }
  }

  /** One sampling round over every key of the storage (discovery.go:172-213). */
  method ScanSample(m: Markers, sample: Storage, clusters: map<string, ClusterData>)
    returns (updated: map<string, ClusterData>)
    ensures updated == clusters + SampleClusters(m, sample)
  {
    updated := clusters;
    var pending := sample.Keys;
    ghost var seen: set<string> := {};
    while pending != {}
      invariant pending + seen == sample.Keys && pending !! seen
      invariant updated == clusters + SampleClustersOn(m, sample, seen)
      decreases pending
    {
      var d :| d in pending;
      var cd := ScanKey(m, d, sample[d]);
      SampleClustersOnStep(m, sample, seen, d);
      if cd.Some? {
        UnionUpdate(clusters, SampleClustersOn(m, sample, seen), d, cd.value);
        updated := updated[d := cd.value];
      }
      pending := pending - {d};
      seen := seen + {d};
    }
  }

  /**
   * The scanner goroutine's accumulation: one sampling round per sample taken
   * before the deadline (discovery.go:156, 165-215).
   */
  method RetrieveNetworkData(m: Markers, samples: seq<Storage>) returns (clusters: map<string, ClusterData>)
    ensures clusters == ScanAll(m, samples)
  {
    clusters := map[];
    for n := 0 to |samples|
      invariant clusters == ScanAll(m, samples[..n])
    {
      assert samples[..n + 1][..n] == samples[..n];
      clusters := ScanSample(m, samples[n], clusters);
    }
    assert samples[..|samples|] == samples;
  }

  /**
   * The hand-off of the accumulated clusters and their collection by the pass
   * (discovery.go:158-163 and 100-107): every cluster is sent once, in map
   * order, appended to `ledgerK`, and `hasWorkers` records a non-empty one.
   */
  method ReceiveClusters(clusters: map<string, ClusterData>) returns (ledgerK: seq<ClusterData>, hasWorkers: bool)
    ensures Lists(ledgerK, clusters)
    ensures hasWorkers <==> exists i :: 0 <= i < |ledgerK| && ledgerK[i].workers != []
  {
    ledgerK, hasWorkers := [], false;
    var pending := clusters.Keys;
    ghost var order: seq<string> := [];
    while pending != {}
      invariant pending !! (set k | k in order)
      invariant pending <= clusters.Keys
      invariant |pending| + |order| == |clusters.Keys|
      invariant forall k :: k in clusters <==> k in pending || k in order
      invariant forall i, j :: 0 <= i < j < |order| ==> order[i] != order[j]
      invariant |order| == |ledgerK| && forall i :: 0 <= i < |order| ==> order[i] in clusters && ledgerK[i] == clusters[order[i]]
      invariant hasWorkers <==> exists i :: 0 <= i < |ledgerK| && ledgerK[i].workers != []
      decreases pending
    {
      var k :| k in pending;
      var cd := clusters[k];
      ledgerK := ledgerK + [cd];
      order := order + [k];
      if |cd.workers| > 0 {
        hasWorkers := true;
      }
      pending := pending - {k};
    }
    assert ListedBy(ledgerK, clusters, order);
  }

  // ---------------------------------------------------------------------------
  // Failure counting and the per-token pass (discovery.go:58-147)
  // ---------------------------------------------------------------------------

  /** A failure count, with an absent entry counting as 0 (Go's map zero value). */
  function Count(failures: map<string, nat>, token: string): nat {
    if token in failures then failures[token] else 0
  }

  /** `s.failures[token]++`. */
  function Bump(failures: map<string, nat>, token: string): (r: map<string, nat>)
    ensures r.Keys == failures.Keys + {token}
    ensures r[token] == Count(failures, token) + 1
    ensures forall t :: t in failures && t != token ==> r[t] == failures[t]
  {
    failures[token := Count(failures, token) + 1]
  }

  /** The clusters collected for a token in one pass. */
  function Collected(m: Markers, conn: Connection): map<string, ClusterData> {
    if conn.Connected? then ScanAll(m, conn.samples) else map[]
  }

  /** The pass stores a network for the token: it connected and some cluster has workers. */
  predicate Succeeds(m: Markers, conn: Connection) {
    conn.Connected? && HasWorkers(ScanAll(m, conn.samples))
  }

  /**
   * The failure map after the tokens of `done` have been processed once: a
   * succeeding token loses its entry, a failing one gains exactly 1.
   */
  function PassFailures(m: Markers, failures: map<string, nat>, done: set<string>, outcome: string -> Connection)
    : map<string, nat>
  {
    map t | t in failures.Keys + done && !(t in done && Succeeds(m, outcome(t))) ::
      if t in done then Count(failures, t) + 1 else failures[t]
  }

  /** The tokens whose count is strictly greater than the threshold. */
  function Evicted(failures: map<string, nat>, threshold: int): set<string> {
    set t | t in failures && failures[t] > threshold
  }

  /** The failure entries at or below the threshold. */
  function Surviving(failures: map<string, nat>, threshold: int): map<string, nat> {
    map t | t in failures && failures[t] <= threshold :: failures[t]
  }

  /**
   * The token store and the failure map after one `runBackground` call: an
   * empty store is left as it is (no pass and no sweep), otherwise every token
   * is processed and then the sweep runs.
   */
  function PassEffect(m: Markers, tokens: set<string>, failures: map<string, nat>,
                      outcome: string -> Connection, threshold: int): (set<string>, map<string, nat>)
  {
    if tokens == {} then (tokens, failures)
    else
      var counted := PassFailures(m, failures, tokens, outcome);
      (tokens - Evicted(counted, threshold), Surviving(counted, threshold))
  }

  /** The store and failure map after consecutive passes, one outcome per pass. */
  function Passes(m: Markers, tokens: set<string>, failures: map<string, nat>,
                  outcomes: seq<string -> Connection>, threshold: int): (set<string>, map<string, nat>)
    decreases |outcomes|
  {
    if outcomes == [] then (tokens, failures)
    else
      var (t1, f1) := PassEffect(m, tokens, failures, outcomes[0], threshold);
      Passes(m, t1, f1, outcomes[1..], threshold)
  }

  /** The tokens of `done` whose pass succeeds. */
  function Succeeded(m: Markers, done: set<string>, outcome: string -> Connection): set<string> {
    set t | t in done && Succeeds(m, outcome(t))
  }

  /**
   * `Networks` after the tokens of `done` have been processed: a succeeding
   * token's entry is replaced by a listing of what it collected; every other
   * entry is untouched.
   */
  ghost predicate PassNetworks(m: Markers, before: map<string, seq<ClusterData>>, after: map<string, seq<ClusterData>>,
                               done: set<string>, outcome: string -> Connection)
  {
    && after.Keys == before.Keys + Succeeded(m, done, outcome)
    && forall t :: t in after ==> EntryAfter(m, before, after, done, outcome, t)
  }

  /**
   * `Networks` before and after one `runBackground` over the store `ts`: an
   * empty store changes nothing, otherwise the pass specification holds.
   */
  ghost predicate BackgroundNetworks(m: Markers, before: map<string, seq<ClusterData>>,
                                     after: map<string, seq<ClusterData>>,
                                     ts: set<string>, outcome: string -> Connection)
  {
    if ts == {} then after == before else PassNetworks(m, before, after, ts, outcome)
  }

  /** The `Networks` history of `Start` grows by one pass at a time. */
  lemma HistoryExtend(m: Markers, tokens0: set<string>, failures0: map<string, nat>, threshold: int,
                      outcomes: seq<string -> Connection>, history: seq<map<string, seq<ClusterData>>>,
                      after: map<string, seq<ClusterData>>, n: nat)
    requires n < |outcomes| && |history| == n + 1
    requires forall i :: 0 <= i < n ==>
               BackgroundNetworks(m, history[i], history[i + 1],
                                  Passes(m, tokens0, failures0, outcomes[..i], threshold).0, outcomes[i])
    requires BackgroundNetworks(m, history[n], after, Passes(m, tokens0, failures0, outcomes[..n], threshold).0, outcomes[n])
    ensures forall i :: 0 <= i < n + 1 ==>
              BackgroundNetworks(m, (history + [after])[i], (history + [after])[i + 1],
                                 Passes(m, tokens0, failures0, outcomes[..i], threshold).0, outcomes[i])
  {
    var h := history + [after];
    forall i | 0 <= i < n + 1
      ensures BackgroundNetworks(m, h[i], h[i + 1], Passes(m, tokens0, failures0, outcomes[..i], threshold).0, outcomes[i])
    {
      if i < n {
        assert h[i] == history[i] && h[i + 1] == history[i + 1];
      } else {
        assert h[i] == history[n] && h[i + 1] == after;
      }
    }
  }

  /** The entry of one token in `PassNetworks`. */
  ghost predicate EntryAfter(m: Markers, before: map<string, seq<ClusterData>>, after: map<string, seq<ClusterData>>,
                             done: set<string>, outcome: string -> Connection, t: string)
    requires t in after
  {
    if t in Succeeded(m, done, outcome) then Lists(after[t], Collected(m, outcome(t)))
    else t in before && after[t] == before[t]
  }

  /** Processing a succeeding token removes its entry from the failure map. */
  lemma PassFailuresStepSuccess(m: Markers, failures: map<string, nat>, done: set<string>,
                                outcome: string -> Connection, token: string)
    requires token !in done && Succeeds(m, outcome(token))
    ensures PassFailures(m, failures, done + {token}, outcome) == PassFailures(m, failures, done, outcome) - {token}
  {
    var a := PassFailures(m, failures, done + {token}, outcome);
    var b := PassFailures(m, failures, done, outcome) - {token};
    assert a.Keys == b.Keys;
  }

  /** Processing a failing token adds one to its count. */
  lemma PassFailuresStepFailure(m: Markers, failures: map<string, nat>, done: set<string>,
                                outcome: string -> Connection, token: string)
    requires token !in done && !Succeeds(m, outcome(token))
    ensures PassFailures(m, failures, done + {token}, outcome) == Bump(PassFailures(m, failures, done, outcome), token)
  {
    var before := PassFailures(m, failures, done, outcome);
    assert Count(before, token) == Count(failures, token);
    var a := PassFailures(m, failures, done + {token}, outcome);
    var b := Bump(before, token);
    assert a.Keys == b.Keys;
  }

  lemma SucceededStep(m: Markers, done: set<string>, outcome: string -> Connection, token: string)
    ensures Succeeded(m, done + {token}, outcome) ==
            if Succeeds(m, outcome(token)) then Succeeded(m, done, outcome) + {token} else Succeeded(m, done, outcome)
  {
  }

  /** Processing one more token keeps `PassNetworks` in step. */
  lemma PassNetworksStep(m: Markers, before: map<string, seq<ClusterData>>, mid: map<string, seq<ClusterData>>,
                         after: map<string, seq<ClusterData>>, done: set<string>,
                         outcome: string -> Connection, token: string)
    requires token !in done
    requires PassNetworks(m, before, mid, done, outcome)
    requires Succeeds(m, outcome(token)) ==>
               token in after && after == mid[token := after[token]] && Lists(after[token], Collected(m, outcome(token)))
    requires !Succeeds(m, outcome(token)) ==> after == mid
    ensures PassNetworks(m, before, after, done + {token}, outcome)
  {
    SucceededStep(m, done, outcome, token);
    forall t | t in after ensures EntryAfter(m, before, after, done + {token}, outcome, t) {
      if t != token {
        assert t in mid && after[t] == mid[t];
        assert EntryAfter(m, before, mid, done, outcome, t);
      }
    }
  }

  /** One token's update, failure count and stored network together, keeps the pass in step. */
  lemma PassStep(m: Markers, f0: map<string, nat>, n0: map<string, seq<ClusterData>>, done: set<string>,
                 outcome: string -> Connection, token: string,
                 f1: map<string, nat>, n1: map<string, seq<ClusterData>>,
                 f2: map<string, nat>, n2: map<string, seq<ClusterData>>)
    requires token !in done
    requires f1 == PassFailures(m, f0, done, outcome)
    requires PassNetworks(m, n0, n1, done, outcome)
    requires Succeeds(m, outcome(token)) ==>
               && token in n2
               && n2 == n1[token := n2[token]]
               && Lists(n2[token], Collected(m, outcome(token)))
               && f2 == f1 - {token}
    requires !Succeeds(m, outcome(token)) ==> n2 == n1 && f2 == Bump(f1, token)
    ensures f2 == PassFailures(m, f0, done + {token}, outcome)
    ensures PassNetworks(m, n0, n2, done + {token}, outcome)
  {
    if Succeeds(m, outcome(token)) {
      PassFailuresStepSuccess(m, f0, done, outcome, token);
    } else {
      PassFailuresStepFailure(m, f0, done, outcome, token);
    }
    PassNetworksStep(m, n0, n1, n2, done, outcome, token);
  }

  /** A failing token's count after a pass is its old count plus one. */
  lemma PassCountsFailure(m: Markers, failures: map<string, nat>, tokens: set<string>,
                          outcome: string -> Connection, token: string)
    requires token in tokens && !Succeeds(m, outcome(token))
    ensures token in PassFailures(m, failures, tokens, outcome)
    ensures PassFailures(m, failures, tokens, outcome)[token] == Count(failures, token) + 1
  {
  }

  /** A token that fails in every pass, with its count staying at or below the threshold, stays in the store and counts its failures. */
  lemma {:induction false} RepeatedFailuresCount(m: Markers, tokens: set<string>, failures: map<string, nat>,
                                                 outcomes: seq<string -> Connection>, threshold: int, token: string)
    requires token in tokens
    requires forall i :: 0 <= i < |outcomes| ==> !Succeeds(m, outcomes[i](token))
    requires Count(failures, token) + |outcomes| <= threshold
    ensures token in Passes(m, tokens, failures, outcomes, threshold).0
    ensures Count(Passes(m, tokens, failures, outcomes, threshold).1, token) == Count(failures, token) + |outcomes|
    decreases |outcomes|
  {
    if outcomes != [] {
      var (t1, f1) := PassEffect(m, tokens, failures, outcomes[0], threshold);
      PassCountsFailure(m, failures, tokens, outcomes[0], token);
      assert token in t1 && Count(f1, token) == Count(failures, token) + 1;
      assert forall i :: 0 <= i < |outcomes[1..]| ==> outcomes[1..][i] == outcomes[i + 1];
      RepeatedFailuresCount(m, t1, f1, outcomes[1..], threshold, token);
    }
  }

  /**
   * With a non-negative threshold, a token that starts without failures and
   * fails `threshold` passes in a row is still tracked with count `threshold`;
   * one more failing pass evicts it from the store and the failure map.
   */
  lemma EvictedAfterThresholdPlusOne(m: Markers, tokens: set<string>, failures: map<string, nat>,
                                     outcomes: seq<string -> Connection>, threshold: int, token: string)
    requires threshold >= 0 && token in tokens && token !in failures
    requires |outcomes| == threshold + 1
    requires forall i :: 0 <= i < |outcomes| ==> !Succeeds(m, outcomes[i](token))
    ensures var (t, f) := Passes(m, tokens, failures, outcomes[..threshold], threshold);
            token in t && Count(f, token) == threshold
    ensures var (t, f) := Passes(m, tokens, failures, outcomes, threshold);
            token !in t && token !in f
  {
    var prefix := outcomes[..threshold];
    RepeatedFailuresCount(m, tokens, failures, prefix, threshold, token);
    var (t, f) := Passes(m, tokens, failures, prefix, threshold);
    PassesSplit(m, tokens, failures, prefix, [outcomes[threshold]], threshold);
    assert prefix + [outcomes[threshold]] == outcomes;
    PassCountsFailure(m, f, t, outcomes[threshold], token);
  }

  /** Running passes back to back is running the concatenated outcomes. */
  lemma {:induction false} PassesSplit(m: Markers, tokens: set<string>, failures: map<string, nat>,
                                       a: seq<string -> Connection>, b: seq<string -> Connection>, threshold: int)
    ensures Passes(m, tokens, failures, a + b, threshold) ==
            var (t, f) := Passes(m, tokens, failures, a, threshold); Passes(m, t, f, b, threshold)
    decreases |a|
  {
    if a == [] {
      assert a + b == b;
    } else {
      var (t1, f1) := PassEffect(m, tokens, failures, a[0], threshold);
      assert (a + b)[0] == a[0] && (a + b)[1..] == a[1..] + b;
      PassesSplit(m, t1, f1, a[1..], b, threshold);
    }
  }

  /** A successful pass clears the token's count, and the token is not evicted. */
  lemma SuccessClearsFailures(m: Markers, tokens: set<string>, failures: map<string, nat>,
                              outcome: string -> Connection, threshold: int, token: string)
    requires token in tokens && Succeeds(m, outcome(token))
    ensures token in PassEffect(m, tokens, failures, outcome, threshold).0
    ensures token !in PassEffect(m, tokens, failures, outcome, threshold).1
  {
    assert token !in PassFailures(m, failures, tokens, outcome);
  }

  /**
   * A token that fails a few passes in a row, staying at or below the
   * threshold, and then succeeds is kept in the store with its count cleared.
   */
  lemma RecoveryResetsCount(m: Markers, tokens: set<string>, failures: map<string, nat>,
                            fails: seq<string -> Connection>, ok: string -> Connection, threshold: int, token: string)
    requires token in tokens
    requires forall i :: 0 <= i < |fails| ==> !Succeeds(m, fails[i](token))
    requires Count(failures, token) + |fails| <= threshold
    requires Succeeds(m, ok(token))
    ensures var (t, f) := Passes(m, tokens, failures, fails + [ok], threshold);
            token in t && token !in f
  {
    RepeatedFailuresCount(m, tokens, failures, fails, threshold, token);
    PassesSplit(m, tokens, failures, fails, [ok], threshold);
    var (t, f) := Passes(m, tokens, failures, fails, threshold);
    SuccessClearsFailures(m, t, f, ok, threshold, token);
  }

  /**
   * A network `net` whose ledger holds one online worker `w` under the key
   * `net_<worker marker>` succeeds, and what is stored for it is exactly one
   * worker cluster holding `w` with NetworkID `net`.
   */
  lemma SingleWorkerNetwork(m: Markers, net: string, w: string, s: seq<ClusterData>)
    requires '_' !in net
    requires Lists(s, Collected(m, Connected([map[net + "_" + m.worker := [Some(NodeData(w, true))]]])))
    ensures Succeeds(m, Connected([map[net + "_" + m.worker := [Some(NodeData(w, true))]]]))
    ensures s == [ClusterData([w], Worker, net)]
  {
    var key := net + "_" + m.worker;
    var values: seq<RawValue> := [Some(NodeData(w, true))];
    var c := ClusterData([w], Worker, net);
    ScopedWorkerKey(m, net);
    assert OnlineIDs(values[..0]) == [];
    assert OnlineIDs(values) == [w];
    SingleKeyScan(m, key, values, c);
    assert HasWorkers(map[key := c]);
    ListsSingleton(s, key, c);
  }

  /** A single sample with a single reported key scans to that one cluster. */
  lemma SingleKeyScan(m: Markers, key: string, values: seq<RawValue>, c: ClusterData)
    requires KeyCluster(m, key, values) == Some(c)
    ensures ScanAll(m, [map[key := values]]) == map[key := c]
  {
    var sample := map[key := values];
    assert SampleClusters(m, sample) == map[key := c];
    assert [sample][..0] == [];
  }

  // ---------------------------------------------------------------------------
  // The discovery server (discovery.go:16-147)
  // ---------------------------------------------------------------------------

  /** A stored network: at least one cluster, and every cluster has workers. */
  ghost predicate UsableNetwork(clusters: seq<ClusterData>) {
    clusters != [] && forall i :: 0 <= i < |clusters| ==> clusters[i].workers != []
  }

  /** What a successful scan stores is a usable network. */
  lemma CollectedIsUsable(m: Markers, samples: seq<Storage>, s: seq<ClusterData>)
    requires Lists(s, ScanAll(m, samples)) && HasWorkers(ScanAll(m, samples))
    ensures UsableNetwork(s)
  {
    var clusters := ScanAll(m, samples);
    ScanAllClusters(m, samples);
    ListsHasWorkers(s, clusters);
    forall i | 0 <= i < |s| ensures s[i].workers != [] {
      ListsMember(s, clusters, i);
      var k :| k in clusters && s[i] == clusters[k];
      assert ClusterFor(m, k, clusters[k]);
    }
  }

  class DiscoveryServer {
    /** The token store (`database`): the tokens of the known networks. */
    var tokens: set<string>
    /** `networkState.Networks`: token to the clusters of its last successful pass. */
    var networks: map<string, seq<ClusterData>>
    /** `failures`: consecutive failed passes per token; an absent token counts 0. */
    var failures: map<string, nat>
    /** `connectionTime`, in nanoseconds. */
    const connectionTime: int
    const errorThreshold: int

    /** Every stored network lists at least one cluster, and every stored cluster has workers; counts are positive. */
    ghost predicate Valid()
      reads this
    {
      && (forall t :: t in networks ==> UsableNetwork(networks[t]))
      && (forall t :: t in failures ==> failures[t] >= 1)
    }

    /**
     * `NewDiscoveryServer`: a zero duration becomes 50s, a zero threshold 3,
     * and `Networks` starts empty. `failures` starts empty here; Go
     * leaves it unset.
     */
    constructor (db: set<string>, dur: int, failureThreshold: int)
      ensures Valid()
      ensures tokens == db && networks == map[] && failures == map[]
      ensures connectionTime == (if dur == 0 then 50 * Second else dur)
      ensures errorThreshold == (if failureThreshold == 0 then 3 else failureThreshold)
    {
      var d, th := dur, failureThreshold;
      if d == 0 {
        d := 50 * Second;
      }
      if th == 0 {
        th := 3;
      }
      tokens := db;
      connectionTime := d;
      networks := map[];
      failures := map[];
      errorThreshold := th;
    }

    /** The locked accessor: the current token-to-network snapshot. */
    method NetworkState() returns (snapshot: map<string, seq<ClusterData>>)
      requires Valid()
      ensures snapshot == networks
      ensures forall t :: t in snapshot ==> snapshot[t] != []
    {
      snapshot := networks;
    }

    /** `failedToken`: one more failure for the token, counting from 0 when absent. */
    method FailedToken(token: string)
      requires Valid()
      modifies this`failures
      ensures Valid()
      ensures failures == Bump(old(failures), token)
    {
      failures := failures[token := Count(failures, token) + 1];
    }

    /**
     * The body of the per-token loop (discovery.go:65-125): a connection error
     * or a result without workers counts one failure and leaves `Networks`
     * alone; otherwise the token's network is replaced by what was collected
     * and its failure entry removed.
     */
    method ProcessToken(m: Markers, token: string, conn: Connection)
      requires Valid()
      modifies this`networks, this`failures
      ensures Valid()
      ensures Succeeds(m, conn) ==>
                && token in networks
                && networks == old(networks)[token := networks[token]]
                && Lists(networks[token], Collected(m, conn))
                && failures == old(failures) - {token}
      ensures !Succeeds(m, conn) ==> networks == old(networks) && failures == Bump(old(failures), token)
    {
      match conn
      case NodeFailed =>
        FailedToken(token);
      case StartFailed =>
        FailedToken(token);
      case LedgerFailed =>
        FailedToken(token);
      case Connected(samples) =>
        var clusters := RetrieveNetworkData(m, samples);
        var ledgerK, hasWorkers := ReceiveClusters(clusters);
        ListsHasWorkers(ledgerK, clusters);
        if hasWorkers {
          CollectedIsUsable(m, samples, ledgerK);
          StoreNetwork(token, ledgerK);
        } else {
          FailedToken(token);
        }
    }

    /** The success branch (discovery.go:116-122): replace the token's network wholesale and clear its failures. */
    method StoreNetwork(token: string, clusters: seq<ClusterData>)
      requires Valid() && UsableNetwork(clusters)
      modifies this`networks, this`failures
      ensures Valid()
      ensures networks == old(networks)[token := clusters]
      ensures failures == old(failures) - {token}
    {
      networks := networks[token := clusters];
      failures := failures - {token};
    }

    /**
     * `deleteFailedConnections`: every token whose count is strictly greater
     * than the threshold is deleted from the store and from `failures`;
     * `Networks` is not touched.
     */
    method DeleteFailedConnections()
      requires Valid()
      modifies this`tokens, this`failures
      ensures Valid()
      ensures tokens == old(tokens) - Evicted(old(failures), errorThreshold)
      ensures failures == Surviving(old(failures), errorThreshold)
      ensures forall t :: t in failures ==> failures[t] <= errorThreshold
    {
      var pending := failures.Keys;
      ghost var seen: set<string> := {};
      while pending != {}
        invariant pending + seen == old(failures).Keys && pending !! seen
        invariant tokens == old(tokens) - (set t | t in seen && old(failures)[t] > errorThreshold)
        invariant failures == map t | t in old(failures) && (t in seen ==> old(failures)[t] <= errorThreshold) :: old(failures)[t]
        invariant Valid()
        decreases pending
      {
        var k :| k in pending;
        if failures[k] > errorThreshold {
          tokens := tokens - {k};
          failures := failures - {k};
        }
        pending := pending - {k};
        seen := seen + {k};
      }
    }

    /** One iteration of the pass: `token` is processed and the pass moves on by one token. */
    method VisitToken(m: Markers, outcome: string -> Connection, token: string,
                      ghost f0: map<string, nat>, ghost n0: map<string, seq<ClusterData>>, ghost done: set<string>)
      requires Valid() && token !in done
      requires failures == PassFailures(m, f0, done, outcome)
      requires PassNetworks(m, n0, networks, done, outcome)
      modifies this`networks, this`failures
      ensures Valid()
      ensures failures == PassFailures(m, f0, done + {token}, outcome)
      ensures PassNetworks(m, n0, networks, done + {token}, outcome)
    {
      ghost var mid, midFailures := networks, failures;
      ProcessToken(m, token, outcome(token));
      PassStep(m, f0, n0, done, outcome, token, midFailures, mid, failures, networks);
    }

    /** The loop of one pass: every stored token is processed once, in no particular order. */
    method VisitTokens(m: Markers, outcome: string -> Connection)
      requires Valid()
      modifies this`networks, this`failures
      ensures Valid()
      ensures failures == PassFailures(m, old(failures), tokens, outcome)
      ensures PassNetworks(m, old(networks), networks, tokens, outcome)
    {
      var pending := tokens;
      ghost var done: set<string> := {};
      while pending != {}
        invariant Valid()
        invariant pending + done == old(tokens) && pending !! done
        invariant failures == PassFailures(m, old(failures), done, outcome)
        invariant PassNetworks(m, old(networks), networks, done, outcome)
        decreases pending
      {
        var token :| token in pending;
        VisitToken(m, outcome, token, old(failures), old(networks), done);
        pending := pending - {token};
        done := done + {token};
      }
    }

    /**
     * `runBackground`: with an empty store nothing changes; otherwise every
     * token is processed once and the sweep runs.
     */
    method RunBackground(m: Markers, outcome: string -> Connection)
      requires Valid()
      modifies this`networks, this`failures, this`tokens
      ensures Valid()
      ensures (tokens, failures) == PassEffect(m, old(tokens), old(failures), outcome, errorThreshold)
      ensures old(tokens) == {} ==> networks == old(networks)
      ensures old(tokens) != {} ==> PassNetworks(m, old(networks), networks, old(tokens), outcome)
      ensures old(tokens) != {} ==> forall t :: t in failures ==> failures[t] <= errorThreshold
      ensures old(networks).Keys <= networks.Keys
    {
      if tokens == {} {
        return;
      }
      VisitTokens(m, outcome);
      DeleteFailedConnections();
    }

    /**
     * `Start`, with the cancellation abstracted: one `runBackground` per
     * element of `outcomes`, then the cancellation error. `history[i]` is
     * `Networks` before pass `i`, so each entry holds the listing of its
     * token's most recent successful pass.
     */
    method Start(m: Markers, outcomes: seq<string -> Connection>)
      returns (err: string, ghost history: seq<map<string, seq<ClusterData>>>)
      requires Valid()
      modifies this`networks, this`failures, this`tokens
      ensures Valid()
      ensures (tokens, failures) == Passes(m, old(tokens), old(failures), outcomes, errorThreshold)
      ensures |history| == |outcomes| + 1 && history[0] == old(networks) && history[|outcomes|] == networks
      ensures forall i :: 0 <= i < |outcomes| ==>
                BackgroundNetworks(m, history[i], history[i + 1],
                                   Passes(m, old(tokens), old(failures), outcomes[..i], errorThreshold).0, outcomes[i])
      ensures old(networks).Keys <= networks.Keys
      ensures err == "context cancelled"
    {
      history := [networks];
      for n := 0 to |outcomes|
        invariant Valid()
        invariant old(networks).Keys <= networks.Keys
        invariant (tokens, failures) == Passes(m, old(tokens), old(failures), outcomes[..n], errorThreshold)
        invariant |history| == n + 1 && history[0] == old(networks) && history[n] == networks
        invariant forall i :: 0 <= i < n ==>
                    BackgroundNetworks(m, history[i], history[i + 1],
                                       Passes(m, old(tokens), old(failures), outcomes[..i], errorThreshold).0, outcomes[i])
      {
        PassesSplit(m, old(tokens), old(failures), outcomes[..n], [outcomes[n]], errorThreshold);
        assert outcomes[..n] + [outcomes[n]] == outcomes[..n + 1];
        RunBackground(m, outcomes[n]);
        HistoryExtend(m, old(tokens), old(failures), errorThreshold, outcomes, history, networks, n);
        history := history + [networks];
      }
      assert outcomes[..|outcomes|] == outcomes;
      err := "context cancelled";
    }
  }

  // ---------------------------------------------------------------------------
  // The failure map as `NewDiscoveryServer` leaves it (discovery.go:44-51, 134)
  // ---------------------------------------------------------------------------

  /** A Go `map[string]int` value: the nil map, or an allocated one. */
  datatype GoCounts = NilMap | Allocated(counts: map<string, nat>)

  /** `failures` as `NewDiscoveryServer` leaves it: the field is never assigned. */
  const ConstructedFailures: GoCounts := NilMap

  /**
   * `s.failures[token]++` with Go's map semantics: reading a nil map yields 0,
   * but assigning into it panics (`None`).
   */
  function IncrementAsWritten(f: GoCounts, token: string): (r: Option<GoCounts>)
    ensures r.None? <==> f.NilMap?
    ensures f.Allocated? ==> r == Some(Allocated(Bump(f.counts, token)))
  {
    match f
    case NilMap => None
    case Allocated(counts) => Some(Allocated(counts[token := Count(counts, token) + 1]))
  }

  /**
   * The first failed token on a server built by `NewDiscoveryServer` panics,
   * whatever the token; the corrected constructor starts from an empty map,
   * on which the same increment yields a count of 1.
   */
  lemma FirstFailurePanics(token: string)
    ensures IncrementAsWritten(ConstructedFailures, token) == None
    ensures IncrementAsWritten(Allocated(map[]), token) == Some(Allocated(map[token := 1]))
  {
    assert Bump(map[], token) == map[token := 1];
  }
}
