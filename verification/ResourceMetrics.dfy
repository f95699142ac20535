/**
 The metric joins of src/lib/resource-metrics.ts with their identity-keyed caches. Rows, nodes,
 tables, topologies and indexes carry the identity of their object as `ref`; two of them are the
 same object when they are equal, `ref` included.
 */
module ResourceMetrics {
  import opened Wrappers

  datatype Metric = Metric(
    cluster: string,
    kind: string,
    namespace: Option<string>,
    name: string,
    cpuMillicores: Option<real>,
    memoryBytes: Option<real>,
    sampledAt: Option<string>,
    sourcePods: seq<string>)

  datatype Row = Row(ref: nat, kind: string, namespace: Option<string>, name: string, metrics: Option<Metric>, rest: string)

  datatype Table = Table(ref: nat, rows: seq<Row>)

  datatype Node = Node(
    ref: nat, kind: string, namespace: Option<string>, name: string, metrics: Option<Metric>, summary: Row, rest: string)

  datatype Topology = Topology(ref: nat, nodes: seq<Node>, edges: seq<string>, warnings: seq<string>)

  datatype Index = Index(ref: nat, metrics: map<string, Metric>)

  datatype Summary = Summary(pods: seq<Metric>, nodes: seq<Metric>, workloads: seq<Metric>)

  /** sameMetric, field by field. */
  predicate SameMetric(left: Option<Metric>, right: Metric) {
    && left.Some?
    && left.value.cluster == right.cluster && left.value.kind == right.kind
    && left.value.namespace == right.namespace && left.value.name == right.name
    && left.value.cpuMillicores == right.cpuMillicores && left.value.memoryBytes == right.memoryBytes
    && left.value.sampledAt == right.sampledAt && |left.value.sourcePods| == |right.sourcePods|
    && (forall i :: 0 <= i < |left.value.sourcePods| ==> left.value.sourcePods[i] == right.sourcePods[i])
  }

  /** No field of a metric is missing from the comparison. */
  lemma SameMetricIsEquality(left: Option<Metric>, right: Metric)
    ensures SameMetric(left, right) <==> left == Some(right)
  {
    if SameMetric(left, right) {
      assert left.value.sourcePods == right.sourcePods;
    }
  }

  function MetricKey(kind: string, namespace: Option<string>, name: string): string {
    kind + ":" + namespace.GetOr("") + ":" + name
  }

  function KeyOf(m: Metric): string { MetricKey(m.kind, m.namespace, m.name) }

  // ---------------------------------------------------------------- the index

  /** The last metric of the list under a key. */
  function LastUnder(ms: seq<Metric>, key: string): (m: Option<Metric>)
    ensures m.Some? ==> m.value in ms && KeyOf(m.value) == key
  {
    if ms == [] then None
    else if KeyOf(ms[|ms| - 1]) == key then Some(ms[|ms| - 1])
    else LastUnder(ms[..|ms| - 1], key)
  }

  ghost predicate Indexes(metrics: map<string, Metric>, ms: seq<Metric>) {
    forall key :: (key in metrics <==> LastUnder(ms, key).Some?) && (key in metrics ==> LastUnder(ms, key) == Some(metrics[key]))
  }

  lemma IndexesOneMore(metrics: map<string, Metric>, ms: seq<Metric>, m: Metric)
    requires Indexes(metrics, ms)
    ensures Indexes(metrics[KeyOf(m) := m], ms + [m])
  {
    var grown := ms + [m];
    assert grown[..|grown| - 1] == ms && grown[|grown| - 1] == m;
  }

  method AddAll(index: map<string, Metric>, ghost before: seq<Metric>, ms: seq<Metric>) returns (r: map<string, Metric>)
    requires Indexes(index, before)
    ensures Indexes(r, before + ms)
  {
    r := index;
    var i := 0;
    assert before + ms[..0] == before;
    while i < |ms|
      invariant 0 <= i <= |ms| && Indexes(r, before + ms[..i])
    {
      IndexesOneMore(r, before + ms[..i], ms[i]);
      assert before + ms[..i] + [ms[i]] == before + ms[..i + 1];
      r := r[KeyOf(ms[i]) := ms[i]];
      i := i + 1;
    }
    assert ms[..i] == ms;
  }

  /** The index maps every key of the summary to its last metric: workloads over nodes over pods. */
  method ResourceMetricIndex(summary: Option<Summary>) returns (index: map<string, Metric>)
    ensures summary.None? ==> index == map[]
    ensures summary.Some? ==> Indexes(index, summary.value.pods + summary.value.nodes + summary.value.workloads)
  {
    index := map[];
    if summary.None? {
      return;
    }
    index := AddAll(index, [], summary.value.pods);
    assert [] + summary.value.pods == summary.value.pods;
    index := AddAll(index, summary.value.pods, summary.value.nodes);
    index := AddAll(index, summary.value.pods + summary.value.nodes, summary.value.workloads);
  }

  // ---------------------------------------------------------------- the plain join

  predicate SameRow(a: Row, b: Row) { a.(ref := 0) == b.(ref := 0) }

  /** The row as the join should show it. */
  function JoinRow(row: Row, index: Index): Row {
    var key := MetricKey(row.kind, row.namespace, row.name);
    if key in index.metrics then row.(metrics := Some(index.metrics[key])) else row
  }

  /** `table` is the plain join of `source` with the index, whatever its identity. */
  ghost predicate Joins(source: Table, index: Index, table: Table) {
    && |table.rows| == |source.rows|
    && (forall i :: 0 <= i < |source.rows| ==> SameRow(table.rows[i], JoinRow(source.rows[i], index)))
  }

  predicate SameNode(a: Node, b: Node) {
    && a.kind == b.kind && a.namespace == b.namespace && a.name == b.name && a.metrics == b.metrics && a.rest == b.rest
    && SameRow(a.summary, b.summary)
  }

  /** The node with a metric on itself and on its summary. */
  function Stamped(node: Node, metric: Metric): Node {
    node.(metrics := Some(metric), summary := node.summary.(metrics := Some(metric)))
  }

  function JoinNode(node: Node, index: Index): Node {
    var key := MetricKey(node.kind, node.namespace, node.name);
    if key in index.metrics then Stamped(node, index.metrics[key]) else node
  }

  // ---------------------------------------------------------------- which metric a row gets

  /** The metric is for the resource of that kind, namespace and name, a missing namespace being the empty text. */
  predicate IsFor(m: Metric, kind: string, namespace: Option<string>, name: string) {
    m.kind == kind && m.namespace.GetOr("") == namespace.GetOr("") && m.name == name
  }

  /** No kind and no namespace holds a colon. */
  predicate Colonless(kind: string, namespace: Option<string>) { ':' !in kind && ':' !in namespace.GetOr("") }

  ghost predicate AllColonless(ms: seq<Metric>) {
    forall i :: 0 <= i < |ms| ==> Colonless(ms[i].kind, ms[i].namespace)
  }

  lemma CutsAtColon(head: string, tail: string, other: string, rest: string)
    requires ':' !in head && ':' !in other
    ensures head + ":" + tail == other + ":" + rest <==> head == other && tail == rest
  {
    var left, right := head + ":" + tail, other + ":" + rest;
    assert forall i :: 0 <= i < |head| ==> left[i] == head[i];
    assert forall i :: 0 <= i < |other| ==> right[i] == other[i];
    assert left[|head|] == ':' && right[|other|] == ':';
    if left == right {
      assert left[..|head|] == head && right[..|other|] == other;
      assert left[|head| + 1..] == tail && right[|other| + 1..] == rest;
    }
  }

  /** Then keys tell resources apart by kind, namespace and name. */
  lemma MetricKeyTellsApart(m: Metric, kind: string, namespace: Option<string>, name: string)
    requires Colonless(m.kind, m.namespace) && Colonless(kind, namespace)
    ensures KeyOf(m) == MetricKey(kind, namespace, name) <==> IsFor(m, kind, namespace, name)
  {
    var own, other := m.namespace.GetOr(""), namespace.GetOr("");
    assert KeyOf(m) == m.kind + ":" + (own + ":" + m.name);
    assert MetricKey(kind, namespace, name) == kind + ":" + (other + ":" + name);
    CutsAtColon(m.kind, own + ":" + m.name, kind, other + ":" + name);
    CutsAtColon(own, m.name, other, name);
  }

  /** Metric j is the last one of the list for that resource. */
  ghost predicate IsLastFor(ms: seq<Metric>, j: nat, kind: string, namespace: Option<string>, name: string) {
    && j < |ms| && IsFor(ms[j], kind, namespace, name)
    && forall k :: j < k < |ms| ==> !IsFor(ms[k], kind, namespace, name)
  }

  ghost predicate NoneFor(ms: seq<Metric>, kind: string, namespace: Option<string>, name: string) {
    forall k :: 0 <= k < |ms| ==> !IsFor(ms[k], kind, namespace, name)
  }

  lemma {:induction false} LastUnderIs(ms: seq<Metric>, kind: string, namespace: Option<string>, name: string)
    requires AllColonless(ms) && Colonless(kind, namespace)
    ensures var last := LastUnder(ms, MetricKey(kind, namespace, name));
            && (NoneFor(ms, kind, namespace, name) ==> last.None?)
            && (forall j: nat :: IsLastFor(ms, j, kind, namespace, name) ==> last == Some(ms[j]))
  {
    if ms != [] {
      var init, last := ms[..|ms| - 1], ms[|ms| - 1];
      MetricKeyTellsApart(last, kind, namespace, name);
      LastUnderIs(init, kind, namespace, name);
      assert NoneFor(ms, kind, namespace, name) ==> NoneFor(init, kind, namespace, name);
      forall j: nat | IsLastFor(ms, j, kind, namespace, name) && j < |init|
        ensures IsLastFor(init, j, kind, namespace, name)
      {
      }
    }
  }

  /** A row of the join carries the last metric the summary lists for its kind, namespace and name,
      pods before nodes before workloads; a row without one is left as it is. */
  lemma RowGetsItsMetric(summary: Summary, index: Index, row: Row)
    requires Indexes(index.metrics, summary.pods + summary.nodes + summary.workloads)
    requires AllColonless(summary.pods + summary.nodes + summary.workloads) && Colonless(row.kind, row.namespace)
    ensures var ms := summary.pods + summary.nodes + summary.workloads;
            && (forall j: nat :: IsLastFor(ms, j, row.kind, row.namespace, row.name) ==>
                  JoinRow(row, index) == row.(metrics := Some(ms[j])))
            && (NoneFor(ms, row.kind, row.namespace, row.name) ==> JoinRow(row, index) == row)
  {
    LastUnderIs(summary.pods + summary.nodes + summary.workloads, row.kind, row.namespace, row.name);
  }

  /** The same for a node of a topology, which carries the metric on itself and on its summary. */
  lemma NodeGetsItsMetric(summary: Summary, index: Index, node: Node)
    requires Indexes(index.metrics, summary.pods + summary.nodes + summary.workloads)
    requires AllColonless(summary.pods + summary.nodes + summary.workloads) && Colonless(node.kind, node.namespace)
    ensures var ms := summary.pods + summary.nodes + summary.workloads;
            && (forall j: nat :: IsLastFor(ms, j, node.kind, node.namespace, node.name) ==>
                  JoinNode(node, index) == node.(metrics := Some(ms[j]), summary := node.summary.(metrics := Some(ms[j]))))
            && (NoneFor(ms, node.kind, node.namespace, node.name) ==> JoinNode(node, index) == node)
  {
    LastUnderIs(summary.pods + summary.nodes + summary.workloads, node.kind, node.namespace, node.name);
  }

  ghost predicate JoinsTopology(source: Topology, index: Index, topology: Topology) {
    && |topology.nodes| == |source.nodes| && topology.edges == source.edges && topology.warnings == source.warnings
    && (forall i :: 0 <= i < |source.nodes| ==> SameNode(topology.nodes[i], JoinNode(source.nodes[i], index)))
  }

  // ---------------------------------------------------------------- the cached join

  datatype CachedTable = CachedTable(index: Index, table: Table)

  datatype CachedTopology = CachedTopology(index: Index, topology: Topology)

  class MetricMerger {
    var metricRows: map<Row, Row>
    var metricTables: map<Table, CachedTable>
    var metricNodes: map<Node, Node>
    var metricTopologies: map<Topology, CachedTopology>
    var nextRef: nat

    /** Every cached object is the plain join of its key with some index. */
    ghost predicate Valid()
      reads this
    {
      RowsValid(metricRows) && TablesValid(metricTables) && NodesValid(metricNodes) && TopologiesValid(metricTopologies)
    }

    constructor (firstRef: nat)
      ensures Valid()
    {
      metricRows, metricTables, metricNodes, metricTopologies, nextRef := map[], map[], map[], map[], firstRef;
    }

    /** The row of one resource: the resource if nothing changes, and the row made before if its
        metric is equal. */
    method MergeRow(resource: Row, index: Index) returns (row: Row)
      requires RowsValid(metricRows)
      modifies this`metricRows, this`nextRef
      ensures RowsValid(metricRows) && SameRow(row, JoinRow(resource, index)) && HeldFor(resource, row, metricRows)
      ensures SameRow(resource, JoinRow(resource, index)) ==> row == resource
      ensures forall r :: r != resource ==> SameEntry(r, old(metricRows), metricRows)
      ensures Kept(index, old(metricRows), metricRows)
    {
      row := resource;
      var key := MetricKey(resource.kind, resource.namespace, resource.name);
      if key in index.metrics {
        var metric := index.metrics[key];
        SameMetricIsEquality(resource.metrics, metric);
        if !SameMetric(resource.metrics, metric) {
          if resource in metricRows {
            SameMetricIsEquality(metricRows[resource].metrics, metric);
          }
          if resource in metricRows && SameMetric(metricRows[resource].metrics, metric) {
            row := metricRows[resource];
          } else {
            row := resource.(metrics := Some(metric), ref := nextRef);
            nextRef := nextRef + 1;
          }
          metricRows := metricRows[resource := row];
        }
      }
    }

    /** mergeResourceMetrics. The result is the plain join of the rows, in their order; an empty
        index gives the rows themselves; rows whose metric is equal to that of the last result keep
        their identity, and so does the whole table when all of them do. */
    method MergeResourceMetrics(resources: Table, index: Index) returns (result: Table)
      requires Valid()
      modifies this
      ensures Valid() && Joins(resources, index, result)
      ensures index.metrics == map[] ==> result == resources
      ensures index.metrics != map[] ==>
                resources in metricTables && metricTables[resources] == CachedTable(index, result)
      ensures Latest(resources, old(metricTables), old(metricRows)) || !SameIndex(resources, index, old(metricTables)) ==>
                index.metrics == map[] || Latest(resources, metricTables, metricRows)
      ensures Latest(resources, old(metricTables), old(metricRows)) && index.metrics != map[] ==>
                KeepsRows(resources, index, old(metricTables)[resources].table, result)
      ensures resources !in old(metricTables) ==> KeepsRows(resources, index, resources, result)
    {
      if |index.metrics| == 0 {
        return resources;
      }
      if resources in metricTables && metricTables[resources].index == index {
        return metricTables[resources].table;
      }
      var previous := if resources in metricTables then metricTables[resources].table else resources;
      var rows, same := MergeRows(resources, index, previous);
      result := previous;
      if !same {
        result := Table(nextRef, rows);
        nextRef := nextRef + 1;
      }
      metricTables := metricTables[resources := CachedTable(index, result)];
    }

    /** The loop of mergeResourceMetrics. */
    method MergeRows(resources: Table, index: Index, previous: Table) returns (rows: seq<Row>, same: bool)
      requires RowsValid(metricRows) && |previous.rows| == |resources.rows|
      modifies this`metricRows, this`nextRef
      ensures RowsValid(metricRows) && |rows| == |resources.rows| && (same <==> rows == previous.rows)
      ensures forall i :: 0 <= i < |rows| ==>
                && SameRow(rows[i], JoinRow(resources.rows[i], index)) && HeldFor(resources.rows[i], rows[i], metricRows)
                && (SameRow(resources.rows[i], JoinRow(resources.rows[i], index)) ==> rows[i] == resources.rows[i])
      ensures Kept(index, old(metricRows), metricRows)
    {
      rows, same := [], true;
      while |rows| < |resources.rows|
        invariant RowsValid(metricRows) && |rows| <= |resources.rows| && (same <==> rows == previous.rows[..|rows|])
        invariant forall i :: 0 <= i < |rows| ==>
                    && SameRow(rows[i], JoinRow(resources.rows[i], index)) && HeldFor(resources.rows[i], rows[i], metricRows)
                    && (SameRow(resources.rows[i], JoinRow(resources.rows[i], index)) ==> rows[i] == resources.rows[i])
        invariant Kept(index, old(metricRows), metricRows)
      {
        ghost var before := metricRows;
        var resource := resources.rows[|rows|];
        var row := MergeRow(resource, index);
        HeldStays(resources.rows[..|rows|], rows, index, resource, before, metricRows);
        if row != previous.rows[|rows|] {
          same := false;
        }
        rows := rows + [row];
      }
      assert previous.rows[..|rows|] == previous.rows;
    }

    /** mergeTopologyNodeMetrics. */
    method MergeNode(node: Node, index: Index) returns (merged: Node)
      requires NodesValid(metricNodes)
      modifies this`metricNodes, this`nextRef
      ensures NodesValid(metricNodes) && SameNode(merged, JoinNode(node, index)) && NodeHeldFor(node, merged, metricNodes)
      ensures SameNode(node, JoinNode(node, index)) ==> merged == node
      ensures forall n :: n != node ==> SameEntry(n, old(metricNodes), metricNodes)
      ensures NodesKept(index, old(metricNodes), metricNodes)
    {
      var key := MetricKey(node.kind, node.namespace, node.name);
      if key !in index.metrics {
        return node;
      }
      var metric := index.metrics[key];
      SameMetricIsEquality(node.metrics, metric);
      SameMetricIsEquality(node.summary.metrics, metric);
      if SameMetric(node.metrics, metric) && SameMetric(node.summary.metrics, metric) {
        return node;
      }
      merged := StampNode(node, metric);
    }

    /** The cached node, or a new one, that carries the metric. */
    method StampNode(node: Node, metric: Metric) returns (merged: Node)
      requires NodesValid(metricNodes)
      requires node.metrics != Some(metric) || node.summary.metrics != Some(metric)
      modifies this`metricNodes, this`nextRef
      ensures NodesValid(metricNodes) && SameNode(merged, Stamped(node, metric))
      ensures metricNodes == old(metricNodes)[node := merged]
      ensures node in old(metricNodes) && SameNode(old(metricNodes)[node], Stamped(node, metric)) ==>
                merged == old(metricNodes)[node]
    {
      if node in metricNodes {
        SameMetricIsEquality(metricNodes[node].metrics, metric);
        if SameMetric(metricNodes[node].metrics, metric) {
          merged := metricNodes[node];
          assert metricNodes == metricNodes[node := merged];
          return;
        }
      }
      var summary := node.summary.(ref := nextRef + 1, metrics := Some(metric));
      merged := node.(ref := nextRef, metrics := Some(metric), summary := summary);
      nextRef := nextRef + 2;
      metricNodes := metricNodes[node := merged];
    }

    /** The loop of mergeTopologyMetrics. */
    method MergeNodes(topology: Topology, index: Index, previous: Topology) returns (nodes: seq<Node>, same: bool)
      requires NodesValid(metricNodes) && |previous.nodes| == |topology.nodes|
      modifies this`metricNodes, this`nextRef
      ensures NodesValid(metricNodes) && |nodes| == |topology.nodes| && (same <==> nodes == previous.nodes)
      ensures forall i :: 0 <= i < |nodes| ==>
                && SameNode(nodes[i], JoinNode(topology.nodes[i], index)) && NodeHeldFor(topology.nodes[i], nodes[i], metricNodes)
                && (SameNode(topology.nodes[i], JoinNode(topology.nodes[i], index)) ==> nodes[i] == topology.nodes[i])
      ensures NodesKept(index, old(metricNodes), metricNodes)
    {
      nodes, same := [], true;
      while |nodes| < |topology.nodes|
        invariant NodesValid(metricNodes) && |nodes| <= |topology.nodes| && (same <==> nodes == previous.nodes[..|nodes|])
        invariant forall i :: 0 <= i < |nodes| ==>
                    && SameNode(nodes[i], JoinNode(topology.nodes[i], index)) && NodeHeldFor(topology.nodes[i], nodes[i], metricNodes)
                    && (SameNode(topology.nodes[i], JoinNode(topology.nodes[i], index)) ==> nodes[i] == topology.nodes[i])
        invariant NodesKept(index, old(metricNodes), metricNodes)
      {
        ghost var before := metricNodes;
        var node := topology.nodes[|nodes|];
        var merged := MergeNode(node, index);
        NodesHeldStay(topology.nodes[..|nodes|], nodes, index, node, before, metricNodes);
        if merged != previous.nodes[|nodes|] {
          same := false;
        }
        nodes := nodes + [merged];
      }
      assert previous.nodes[..|nodes|] == previous.nodes;
    }

    /** mergeTopologyMetrics. The result is the plain join of the nodes and their summaries with the
        edges and warnings untouched; it keeps identities as mergeResourceMetrics does. */
    method MergeTopologyMetrics(topology: Option<Topology>, index: Index) returns (result: Option<Topology>)
      requires Valid()
      modifies this
      ensures Valid()
      ensures topology.None? || index.metrics == map[] ==> result == topology
      ensures topology.Some? ==> result.Some? && JoinsTopology(topology.value, index, result.value)
      ensures topology.Some? && index.metrics != map[] ==>
                var source := topology.value;
                && source in metricTopologies && metricTopologies[source] == CachedTopology(index, result.value)
                && (NodesLatest(source, old(metricTopologies), old(metricNodes))
                    || source !in old(metricTopologies) || old(metricTopologies)[source].index != index ==>
                      NodesLatest(source, metricTopologies, metricNodes))
                && (NodesLatest(source, old(metricTopologies), old(metricNodes)) ==>
                      KeepsNodes(source, index, old(metricTopologies)[source].topology, result.value))
                && (source !in old(metricTopologies) ==> KeepsNodes(source, index, source, result.value))
    {
      if topology.None? || |index.metrics| == 0 {
        return topology;
      }
      var source := topology.value;
      if source in metricTopologies && metricTopologies[source].index == index {
        return Some(metricTopologies[source].topology);
      }
      var previous := if source in metricTopologies then metricTopologies[source].topology else source;
      var nodes, same := MergeNodes(source, index, previous);
      var made := previous;
      if !same {
        made := source.(ref := nextRef, nodes := nodes);
        nextRef := nextRef + 1;
      }
      if NodesLatest(source, metricTopologies, old(metricNodes)) || source !in metricTopologies {
        NodesKeepIdentity(source, index, previous, nodes, old(metricNodes), metricNodes);
      }
      metricTopologies := metricTopologies[source := CachedTopology(index, made)];
      result := Some(made);
    }
  }

  /** The node made from `node` is `node` itself or the cached node. */
  ghost predicate NodeHeldFor(node: Node, merged: Node, nodes: map<Node, Node>) {
    merged == node || (node in nodes && nodes[node] == merged)
  }

  ghost predicate NodesLatest(source: Topology, topologies: map<Topology, CachedTopology>, nodes: map<Node, Node>) {
    && source in topologies
    && var made := topologies[source].topology.nodes;
    && |made| == |source.nodes|
    && (forall i :: 0 <= i < |made| ==> NodeHeldFor(source.nodes[i], made[i], nodes))
  }

  ghost predicate NodesKept(index: Index, before: map<Node, Node>, after: map<Node, Node>) {
    forall n :: n in before && SameNode(before[n], JoinNode(n, index)) ==> n in after && after[n] == before[n]
  }

  ghost predicate KeepsNodes(source: Topology, index: Index, previous: Topology, result: Topology) {
    && |previous.nodes| == |source.nodes| == |result.nodes|
    && (forall i :: 0 <= i < |source.nodes| && SameNode(previous.nodes[i], JoinNode(source.nodes[i], index)) ==>
          result.nodes[i] == previous.nodes[i])
    && (JoinsTopology(source, index, previous) ==> result == previous)
  }

  lemma NodesKeepIdentity(source: Topology, index: Index, previous: Topology, nodes: seq<Node>,
                          before: map<Node, Node>, after: map<Node, Node>)
    requires |previous.nodes| == |source.nodes| == |nodes| && NodesValid(before)
    requires forall i :: 0 <= i < |nodes| ==> NodeHeldFor(source.nodes[i], previous.nodes[i], before)
    requires forall i :: 0 <= i < |nodes| ==>
               && NodeHeldFor(source.nodes[i], nodes[i], after)
               && SameNode(nodes[i], JoinNode(source.nodes[i], index))
               && (SameNode(source.nodes[i], JoinNode(source.nodes[i], index)) ==> nodes[i] == source.nodes[i])
    requires NodesKept(index, before, after)
    ensures forall i :: 0 <= i < |nodes| && SameNode(previous.nodes[i], JoinNode(source.nodes[i], index)) ==>
              nodes[i] == previous.nodes[i]
    ensures JoinsTopology(source, index, previous) ==> nodes == previous.nodes
  {
  }

  lemma NodesHeldStay(done: seq<Node>, nodes: seq<Node>, index: Index, node: Node, before: map<Node, Node>, after: map<Node, Node>)
    requires |done| == |nodes| && forall i :: 0 <= i < |nodes| ==>
               SameNode(nodes[i], JoinNode(done[i], index)) && NodeHeldFor(done[i], nodes[i], before)
    requires forall n :: n != node ==> SameEntry(n, before, after)
    requires NodesKept(index, before, after)
    ensures forall i :: 0 <= i < |nodes| ==> NodeHeldFor(done[i], nodes[i], after)
  {
    forall i | 0 <= i < |nodes| ensures NodeHeldFor(done[i], nodes[i], after) {
      assert NodeHeldFor(done[i], nodes[i], before);
      if done[i] != node { assert SameEntry(done[i], before, after); }
    }
  }

  ghost predicate RowsValid(rows: map<Row, Row>) {
    forall r :: r in rows ==>
      var m := rows[r].metrics;
      m.Some? && m != r.metrics && SameRow(rows[r], r.(metrics := m))
  }

  ghost predicate TablesValid(tables: map<Table, CachedTable>) {
    forall t :: t in tables ==> Joins(t, tables[t].index, tables[t].table)
  }

  ghost predicate NodesValid(nodes: map<Node, Node>) {
    forall n :: n in nodes ==>
      var m := nodes[n].metrics;
      && m.Some? && (m != n.metrics || m != n.summary.metrics)
      && SameNode(nodes[n], Stamped(n, m.value))
  }

  ghost predicate TopologiesValid(topologies: map<Topology, CachedTopology>) {
    forall t :: t in topologies ==> JoinsTopology(t, topologies[t].index, topologies[t].topology)
  }

  ghost predicate SameIndex(source: Table, index: Index, tables: map<Table, CachedTable>) {
    source in tables && tables[source].index == index
  }

  /** The row made from `resource` is `resource` itself or the cached row. */
  ghost predicate HeldFor(resource: Row, row: Row, rows: map<Row, Row>) {
    row == resource || (resource in rows && rows[resource] == row)
  }

  /** The rows last made for `source` are the ones the row cache holds. */
  ghost predicate Latest(source: Table, tables: map<Table, CachedTable>, rows: map<Row, Row>) {
    && source in tables
    && var made := tables[source].table.rows;
    && |made| == |source.rows|
    && (forall i :: 0 <= i < |made| ==> HeldFor(source.rows[i], made[i], rows))
  }

  /** Cached rows that are still what the index asks for stay cached. */
  ghost predicate Kept(index: Index, before: map<Row, Row>, after: map<Row, Row>) {
    forall r :: r in before && SameRow(before[r], JoinRow(r, index)) ==> r in after && after[r] == before[r]
  }

  ghost predicate SameEntry<K, V>(k: K, before: map<K, V>, after: map<K, V>) {
    (k in before <==> k in after) && (k in before ==> before[k] == after[k])
  }

  /** A row whose metric is equal keeps its identity, and if all do the table keeps its own. */
  ghost predicate KeepsRows(source: Table, index: Index, previous: Table, result: Table) {
    && |previous.rows| == |source.rows| == |result.rows|
    && (forall i :: 0 <= i < |source.rows| && SameRow(previous.rows[i], JoinRow(source.rows[i], index)) ==>
          result.rows[i] == previous.rows[i])
    && (Joins(source, index, previous) ==> result == previous)
  }

  lemma HeldStays(done: seq<Row>, rows: seq<Row>, index: Index, resource: Row, before: map<Row, Row>, after: map<Row, Row>)
    requires |done| == |rows| && forall i :: 0 <= i < |rows| ==>
               SameRow(rows[i], JoinRow(done[i], index)) && HeldFor(done[i], rows[i], before)
    requires forall r :: r != resource ==> SameEntry(r, before, after)
    requires Kept(index, before, after)
    ensures forall i :: 0 <= i < |rows| ==> HeldFor(done[i], rows[i], after)
  {
    forall i | 0 <= i < |rows| ensures HeldFor(done[i], rows[i], after) {
      assert HeldFor(done[i], rows[i], before);
      if done[i] != resource { assert SameEntry(done[i], before, after); }
    }
  }
}
