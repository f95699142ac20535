/** What a window remembers of where it was: src/lib/path-state.ts. */
module PathState {
  import opened Wrappers
  import opened Text
  import Percent = PercentEncoding

  /** The property names the snapshot uses; all others are Other. */
  datatype Key =
    | KVersion | KRuntime | KLauncherView | KWorkspace | KWorkspaceId | KViewMode | KSelectedNode
    | KExpandedSections | KInitialSearch | KInitialGitOpsFilter | KInitialHealthFilter | KNamespaceOverride
    | KFocusedResource | KRestoreTarget | KTargetHelmRelease | KTargetGitOps | KResources | KDetail | KSurfaces
    | KGroup | KApiVersion | KKind | KPlural | KShortNames | KNamespaced | KDynamic | KType | KSection | KNamespace
    | KResourceKind | KCluster | KName | KSelectedNamespaces | KSelectedKinds | KSearch | KGitOpsFilter
    | KHealthFilter | KSortColumn | KSortDesc | KPageIndex | KScopeEditorOpen | KCollapsedGroups | KTopologyMode
    | KTopologyNodeId | KMapPanelOpen | KTablePanelOpen | KActiveTab | KLabelsExpanded | KAnnotationsExpanded
    | KContainer | KLogFilter | KLogWrapLines | KLogLatestFirst | KYamlViewMode | KYamlEncoding | KYamlShowFullDiff
    | KIncidentFilter | KHelmSearch | KSelectedHelmRelease | KSelectedGitOps | KRbac | KRiskBucket | KObjectKey
    | Other(name: string)

  type Fields = map<Key, Json>

  /** A JSON value; a property that is undefined is one the object does not have. */
  datatype Json = Null | Bool(flag: bool) | Num(number: real) | Str(text: string) | Arr(items: seq<Json>) | Obj(fields: Fields)

  // ---------------------------------------------------------------- the snapshot

  datatype DiscoveredKind = DiscoveredKind(group: string, version: string, apiVersion: string, kind: string,
                                           plural: string, shortNames: seq<string>, namespaced: bool)

  datatype KindSelection = Supported(kind: string) | Discovered(resource: DiscoveredKind)

  datatype TreeNode = TreeNode(nodeType: string, section: string, namespace: Option<string>, group: Option<string>,
                               kind: Option<string>, resourceKind: Option<DiscoveredKind>)

  datatype ResourceRef = ResourceRef(cluster: string, kind: string, name: string, namespace: Option<string>,
                                     apiVersion: Option<string>, group: Option<string>, version: Option<string>,
                                     plural: Option<string>, namespaced: Option<bool>, dynamic: Option<bool>)

  datatype TargetRef = TargetRef(name: string, namespace: Option<string>)

  datatype Browser = Browser(selectedNamespaces: seq<string>, selectedKinds: seq<KindSelection>, search: string,
                             gitOpsFilter: string, healthFilter: string, sortColumn: string, sortDesc: bool,
                             pageIndex: nat, scopeEditorOpen: bool, collapsedGroups: seq<string>,
                             topologyMode: string, topologyNodeId: Option<string>, mapPanelOpen: bool,
                             tablePanelOpen: bool)

  datatype Detail = Detail(activeTab: string, labelsExpanded: bool, annotationsExpanded: bool, container: string,
                           logFilter: string, logWrapLines: bool, logLatestFirst: bool, yamlViewMode: string,
                           yamlEncoding: string, yamlShowFullDiff: bool)

  datatype Rbac = Rbac(riskBucket: string, objectKey: Option<string>)

  datatype Surfaces = Surfaces(incidentFilter: string, helmSearch: string, helmRelease: Option<TargetRef>,
                               gitOpsApplication: Option<string>, rbac: Option<Rbac>)

  datatype Workspace = Workspace(workspaceId: string, viewMode: string, selectedNode: Option<TreeNode>,
                                 expandedSections: seq<string>, initialSearch: string, initialGitOpsFilter: string,
                                 initialHealthFilter: string, namespaceOverride: Option<seq<string>>,
                                 focusedResource: Option<ResourceRef>, restoreTarget: Option<ResourceRef>,
                                 targetHelmRelease: Option<TargetRef>, targetGitOps: Option<string>,
                                 resources: Option<Browser>, detail: Option<Detail>, surfaces: Option<Surfaces>)

  datatype Snapshot = Snapshot(launcherView: string, workspace: Option<Workspace>)

  // ---------------------------------------------------------------- the permitted texts

  const WORKSPACE_VIEW_MODES := ["overview", "resources", "argo", "helm", "incidents", "portForwards", "rbac", "settings"]
  const HEALTH_FILTERS := ["all", "healthy", "attention", "degraded", "unknown", "notEvaluated", "restarted"]
  const SORT_COLUMNS := ["name", "namespace", "kind", "status", "ready", "restarts", "age", "cpu", "memory"]
  const DETAIL_TABS :=
    ["details", "yaml", "events", "logs", "exec", "portForward", "revisions", "operations", "argo"]
  const INCIDENT_FILTERS := ["all", "degraded", "attention", "restarted", "warning"]
  const RISK_BUCKETS := ["all", "high", "medium", "low", "none", "unknown"]
  const NODE_TYPES := ["section", "namespace", "group", "kind"]
  const TOPOLOGY_MODES := ["ownership", "networkFlow"]
  const YAML_VIEW_MODES := ["kubectl", "applyClean"]
  const YAML_ENCODINGS := ["yaml", "kyaml"]
  const LAUNCHER_VIEWS := ["workspaces", "settings"]
  const SUPPORTED_KINDS :=
    ["Pod", "Deployment", "ReplicaSet", "StatefulSet", "DaemonSet", "Service", "Ingress", "ConfigMap", "Secret",
     "PersistentVolumeClaim", "Job", "CronJob"]

  // ---------------------------------------------------------------- reading single properties

  function Get(fields: Fields, key: Key): Option<Json> {
    if key in fields then Some(fields[key]) else None
  }

  function OptionalString(v: Option<Json>): Option<string> {
    if v.Some? && v.value.Str? then Some(v.value.text) else None
  }

  function StringValue(v: Option<Json>): string { OptionalString(v).GetOr("") }

  function OptionalBool(v: Option<Json>): Option<bool> {
    if v.Some? && v.value.Bool? then Some(v.value.flag) else None
  }

  function BooleanValue(v: Option<Json>, fallback: bool): bool { OptionalBool(v).GetOr(fallback) }

  function Pick(v: Option<Json>, values: seq<string>, fallback: string): string {
    if v.Some? && v.value.Str? && v.value.text in values then v.value.text else fallback
  }

  function NonNegativeInteger(v: Option<Json>): nat {
    if v.Some? && v.value.Num? && v.value.number >= 0.0 && v.value.number == v.value.number.Floor as real
    then v.value.number.Floor
    else 0
  }

  /** The strings of a list. */
  function Strings(items: seq<Json>): seq<string> {
    if items == [] then []
    else (if items[0].Str? then [items[0].text] else []) + Strings(items[1..])
  }

  function StringArray(v: Option<Json>): seq<string> {
    if v.Some? && v.value.Arr? then Strings(v.value.items) else []
  }

  function AsRecord(v: Option<Json>): Option<Fields> {
    if v.Some? && v.value.Obj? then Some(v.value.fields) else None
  }

  // ---------------------------------------------------------------- sanitizing

  function SanitizeDiscovered(v: Option<Json>): Option<DiscoveredKind> {
    match AsRecord(v)
    case None => None
    case Some(f) =>
      var version, apiVersion := StringValue(Get(f, KVersion)), StringValue(Get(f, KApiVersion));
      var kind, plural := StringValue(Get(f, KKind)), StringValue(Get(f, KPlural));
      var namespaced := OptionalBool(Get(f, KNamespaced));
      if version == "" || apiVersion == "" || kind == "" || plural == "" || namespaced.None? then None
      else Some(DiscoveredKind(StringValue(Get(f, KGroup)), version, apiVersion, kind, plural,
                               StringArray(Get(f, KShortNames)), namespaced.value))
  }

  function SanitizeKind(v: Json): Option<KindSelection> {
    if StringValue(Some(v)) in SUPPORTED_KINDS then Some(Supported(StringValue(Some(v))))
    else
      match SanitizeDiscovered(Some(v))
      case Some(d) => Some(Discovered(d))
      case None => None
  }

  function Kinds(items: seq<Json>): seq<KindSelection> {
    if items == [] then []
    else (if SanitizeKind(items[0]).Some? then [SanitizeKind(items[0]).value] else []) + Kinds(items[1..])
  }

  function SanitizeTreeNode(v: Option<Json>): Option<TreeNode> {
    match AsRecord(v)
    case None => None
    case Some(f) =>
      var section := StringValue(Get(f, KSection));
      if section == "" then None
      else Some(TreeNode(Pick(Get(f, KType), NODE_TYPES, "section"), section, OptionalString(Get(f, KNamespace)),
                         OptionalString(Get(f, KGroup)), OptionalString(Get(f, KKind)),
                         SanitizeDiscovered(Get(f, KResourceKind))))
  }

  function SanitizeRef(v: Option<Json>): Option<ResourceRef> {
    match AsRecord(v)
    case None => None
    case Some(f) =>
      var cluster, kind, name := StringValue(Get(f, KCluster)), StringValue(Get(f, KKind)), StringValue(Get(f, KName));
      if cluster == "" || kind == "" || name == "" then None
      else Some(ResourceRef(cluster, kind, name, OptionalString(Get(f, KNamespace)),
                            OptionalString(Get(f, KApiVersion)), OptionalString(Get(f, KGroup)),
                            OptionalString(Get(f, KVersion)), OptionalString(Get(f, KPlural)),
                            OptionalBool(Get(f, KNamespaced)), OptionalBool(Get(f, KDynamic))))
  }

  function SanitizeTarget(v: Option<Json>): Option<TargetRef> {
    match AsRecord(v)
    case None => None
    case Some(f) =>
      var name := StringValue(Get(f, KName));
      if name == "" then None else Some(TargetRef(name, OptionalString(Get(f, KNamespace))))
  }

  function SanitizeBrowser(v: Option<Json>): Option<Browser> {
    match AsRecord(v)
    case None => None
    case Some(f) =>
      Some(Browser(
        StringArray(Get(f, KSelectedNamespaces)),
        if Get(f, KSelectedKinds).Some? && Get(f, KSelectedKinds).value.Arr? then Kinds(Get(f, KSelectedKinds).value.items) else [],
        StringValue(Get(f, KSearch)), StringValue(Get(f, KGitOpsFilter)),
        Pick(Get(f, KHealthFilter), HEALTH_FILTERS, "all"), Pick(Get(f, KSortColumn), SORT_COLUMNS, "name"),
        BooleanValue(Get(f, KSortDesc), false), NonNegativeInteger(Get(f, KPageIndex)),
        BooleanValue(Get(f, KScopeEditorOpen), false), StringArray(Get(f, KCollapsedGroups)),
        Pick(Get(f, KTopologyMode), TOPOLOGY_MODES, "ownership"), OptionalString(Get(f, KTopologyNodeId)),
        BooleanValue(Get(f, KMapPanelOpen), false), BooleanValue(Get(f, KTablePanelOpen), true)))
  }

  function SanitizeDetail(v: Option<Json>): Option<Detail> {
    match AsRecord(v)
    case None => None
    case Some(f) =>
      Some(Detail(
        Pick(Get(f, KActiveTab), DETAIL_TABS, "details"), BooleanValue(Get(f, KLabelsExpanded), false),
        BooleanValue(Get(f, KAnnotationsExpanded), false), StringValue(Get(f, KContainer)),
        StringValue(Get(f, KLogFilter)), BooleanValue(Get(f, KLogWrapLines), true),
        BooleanValue(Get(f, KLogLatestFirst), false), Pick(Get(f, KYamlViewMode), YAML_VIEW_MODES, "kubectl"),
        Pick(Get(f, KYamlEncoding), YAML_ENCODINGS, "yaml"), BooleanValue(Get(f, KYamlShowFullDiff), false)))
  }

  function SanitizeRbac(v: Option<Json>): Option<Rbac> {
    match AsRecord(v)
    case None => None
    case Some(f) => Some(Rbac(Pick(Get(f, KRiskBucket), RISK_BUCKETS, "all"), OptionalString(Get(f, KObjectKey))))
  }

  function SanitizeSurfaces(v: Option<Json>): Option<Surfaces> {
    match AsRecord(v)
    case None => None
    case Some(f) =>
      Some(Surfaces(
        Pick(Get(f, KIncidentFilter), INCIDENT_FILTERS, "all"), StringValue(Get(f, KHelmSearch)),
        SanitizeTarget(Get(f, KSelectedHelmRelease)), OptionalString(Get(f, KSelectedGitOps)),
        SanitizeRbac(Get(f, KRbac))))
  }

  function NamespaceOverride(v: Option<Json>): Option<seq<string>> {
    if v.Some? && v.value.Arr? then Some(StringArray(v)) else None
  }

  function WorkspaceOf(f: Fields): Workspace {
    var focused := SanitizeRef(Get(f, KFocusedResource));
    Workspace(
      StringValue(Get(f, KWorkspaceId)), Pick(Get(f, KViewMode), WORKSPACE_VIEW_MODES, "overview"),
      SanitizeTreeNode(Get(f, KSelectedNode)), StringArray(Get(f, KExpandedSections)),
      StringValue(Get(f, KInitialSearch)), StringValue(Get(f, KInitialGitOpsFilter)),
      Pick(Get(f, KInitialHealthFilter), HEALTH_FILTERS, "all"), NamespaceOverride(Get(f, KNamespaceOverride)), focused,
      SanitizeRef(Get(f, KRestoreTarget)).OrElse(focused), SanitizeTarget(Get(f, KTargetHelmRelease)),
      OptionalString(Get(f, KTargetGitOps)), SanitizeBrowser(Get(f, KResources)), SanitizeDetail(Get(f, KDetail)),
      SanitizeSurfaces(Get(f, KSurfaces)))
  }

  function SanitizeWorkspace(v: Option<Json>): Option<Workspace> {
    match AsRecord(v)
    case None => None
    case Some(f) => if StringValue(Get(f, KWorkspaceId)) == "" then None else Some(WorkspaceOf(f))
  }

  function Sanitize(v: Json): Option<Snapshot> {
    if !v.Obj? || Get(v.fields, KVersion) != Some(Num(1.0)) || Get(v.fields, KRuntime) != Some(Str("svelte")) then None
    else Some(Snapshot(Pick(Get(v.fields, KLauncherView), LAUNCHER_VIEWS, "workspaces"),
                       SanitizeWorkspace(Get(v.fields, KWorkspace))))
  }

  // ---------------------------------------------------------------- the snapshot as JSON

  /** A property, left out when undefined. */
  function Put(fields: Fields, key: Key, v: Option<Json>): Fields {
    if v.Some? then fields[key := v.value] else fields
  }

  function TextOf(o: Option<string>): Option<Json> { if o.Some? then Some(Str(o.value)) else None }

  function Flag(o: Option<bool>): Option<Json> { if o.Some? then Some(Bool(o.value)) else None }

  /** A string or null. */
  function Nullable(o: Option<string>): Json { if o.Some? then Str(o.value) else Null }

  function Texts(texts: seq<string>): (items: seq<Json>)
    ensures |items| == |texts|
  {
    if texts == [] then [] else [Str(texts[0])] + Texts(texts[1..])
  }

  function OfDiscovered(d: DiscoveredKind): Json {
    Obj(map[KGroup := Str(d.group), KVersion := Str(d.version), KApiVersion := Str(d.apiVersion), KKind := Str(d.kind),
            KPlural := Str(d.plural), KShortNames := Arr(Texts(d.shortNames)), KNamespaced := Bool(d.namespaced)])
  }

  function OfKind(k: KindSelection): Json {
    match k
    case Supported(kind) => Str(kind)
    case Discovered(d) => OfDiscovered(d)
  }

  function OfKinds(kinds: seq<KindSelection>): seq<Json> {
    if kinds == [] then [] else [OfKind(kinds[0])] + OfKinds(kinds[1..])
  }

  function OfTreeNode(n: TreeNode): Json {
    var base: Fields := map[KType := Str(n.nodeType), KSection := Str(n.section)];
    var named := Put(Put(Put(base, KNamespace, TextOf(n.namespace)), KGroup, TextOf(n.group)), KKind, TextOf(n.kind));
    Obj(Put(named, KResourceKind, if n.resourceKind.Some? then Some(OfDiscovered(n.resourceKind.value)) else None))
  }

  function OfRef(r: ResourceRef): Json { Obj(FlaggedRef(r)) }

  function NamedRef(r: ResourceRef): Fields {
    map[KCluster := Str(r.cluster), KKind := Str(r.kind), KName := Str(r.name), KNamespace := Nullable(r.namespace)]
  }

  function GroupedRef(r: ResourceRef): Fields {
    Put(Put(NamedRef(r), KApiVersion, TextOf(r.apiVersion)), KGroup, TextOf(r.group))
  }

  function TypedRef(r: ResourceRef): Fields {
    Put(Put(GroupedRef(r), KVersion, TextOf(r.version)), KPlural, TextOf(r.plural))
  }

  function FlaggedRef(r: ResourceRef): Fields {
    Put(Put(TypedRef(r), KNamespaced, Flag(r.namespaced)), KDynamic, Flag(r.dynamic))
  }

  function OfTarget(t: TargetRef): Json {
    Obj(map[KName := Str(t.name), KNamespace := Nullable(t.namespace)])
  }

  function OfBrowser(b: Browser): Json {
    Obj(map[KSelectedNamespaces := Arr(Texts(b.selectedNamespaces)), KSelectedKinds := Arr(OfKinds(b.selectedKinds)),
            KSearch := Str(b.search), KGitOpsFilter := Str(b.gitOpsFilter), KHealthFilter := Str(b.healthFilter),
            KSortColumn := Str(b.sortColumn), KSortDesc := Bool(b.sortDesc), KPageIndex := Num(b.pageIndex as real),
            KScopeEditorOpen := Bool(b.scopeEditorOpen), KCollapsedGroups := Arr(Texts(b.collapsedGroups)),
            KTopologyMode := Str(b.topologyMode), KTopologyNodeId := Nullable(b.topologyNodeId),
            KMapPanelOpen := Bool(b.mapPanelOpen), KTablePanelOpen := Bool(b.tablePanelOpen)])
  }

  function OfDetail(d: Detail): Json {
    Obj(map[KActiveTab := Str(d.activeTab), KLabelsExpanded := Bool(d.labelsExpanded),
            KAnnotationsExpanded := Bool(d.annotationsExpanded), KContainer := Str(d.container),
            KLogFilter := Str(d.logFilter), KLogWrapLines := Bool(d.logWrapLines),
            KLogLatestFirst := Bool(d.logLatestFirst), KYamlViewMode := Str(d.yamlViewMode),
            KYamlEncoding := Str(d.yamlEncoding), KYamlShowFullDiff := Bool(d.yamlShowFullDiff)])
  }

  function OfRbac(r: Rbac): Json { Obj(map[KRiskBucket := Str(r.riskBucket), KObjectKey := Nullable(r.objectKey)]) }

  function OfSurfaces(s: Surfaces): Json {
    Obj(map[KIncidentFilter := Str(s.incidentFilter), KHelmSearch := Str(s.helmSearch),
            KSelectedHelmRelease := TargetOrNull(s.helmRelease),
            KSelectedGitOps := Nullable(s.gitOpsApplication),
            KRbac := RbacOrNull(s.rbac)])
  }

  function TreeNodeOrNull(o: Option<TreeNode>): Json { if o.Some? then OfTreeNode(o.value) else Null }

  function RefOrNull(o: Option<ResourceRef>): Json { if o.Some? then OfRef(o.value) else Null }

  function TargetOrNull(o: Option<TargetRef>): Json { if o.Some? then OfTarget(o.value) else Null }

  function BrowserOrNull(o: Option<Browser>): Json { if o.Some? then OfBrowser(o.value) else Null }

  function DetailOrNull(o: Option<Detail>): Json { if o.Some? then OfDetail(o.value) else Null }

  function RbacOrNull(o: Option<Rbac>): Json { if o.Some? then OfRbac(o.value) else Null }

  function SurfacesOrNull(o: Option<Surfaces>): Json { if o.Some? then OfSurfaces(o.value) else Null }

  function TextsOrNull(o: Option<seq<string>>): Json { if o.Some? then Arr(Texts(o.value)) else Null }

  function WorkspaceOrNull(o: Option<Workspace>): Json { if o.Some? then OfWorkspace(o.value) else Null }

  function OfWorkspace(w: Workspace): Json {
    Obj(map[
      KWorkspaceId := Str(w.workspaceId), KViewMode := Str(w.viewMode),
      KSelectedNode := TreeNodeOrNull(w.selectedNode),
      KExpandedSections := Arr(Texts(w.expandedSections)), KInitialSearch := Str(w.initialSearch),
      KInitialGitOpsFilter := Str(w.initialGitOpsFilter), KInitialHealthFilter := Str(w.initialHealthFilter),
      KNamespaceOverride := TextsOrNull(w.namespaceOverride),
      KFocusedResource := RefOrNull(w.focusedResource),
      KRestoreTarget := RefOrNull(w.restoreTarget),
      KTargetHelmRelease := TargetOrNull(w.targetHelmRelease),
      KTargetGitOps := Nullable(w.targetGitOps),
      KResources := BrowserOrNull(w.resources),
      KDetail := DetailOrNull(w.detail),
      KSurfaces := SurfacesOrNull(w.surfaces)])
  }

  function OfSnapshot(s: Snapshot): Json {
    Obj(map[KVersion := Num(1.0), KRuntime := Str("svelte"), KLauncherView := Str(s.launcherView),
            KWorkspace := WorkspaceOrNull(s.workspace)])
  }

  // ---------------------------------------------------------------- what sanitizing establishes

  predicate CleanDiscovered(d: DiscoveredKind) { d.version != "" && d.apiVersion != "" && d.kind != "" && d.plural != "" }

  predicate CleanKind(k: KindSelection) {
    match k
    case Supported(kind) => kind in SUPPORTED_KINDS
    case Discovered(d) => CleanDiscovered(d)
  }

  predicate CleanTreeNode(n: TreeNode) {
    n.nodeType in NODE_TYPES && n.section != "" && (n.resourceKind.Some? ==> CleanDiscovered(n.resourceKind.value))
  }

  predicate CleanRef(r: ResourceRef) { r.cluster != "" && r.kind != "" && r.name != "" }

  predicate CleanBrowser(b: Browser) {
    && b.healthFilter in HEALTH_FILTERS && b.sortColumn in SORT_COLUMNS && b.topologyMode in TOPOLOGY_MODES
    && forall i :: 0 <= i < |b.selectedKinds| ==> CleanKind(b.selectedKinds[i])
  }

  predicate CleanDetail(d: Detail) {
    d.activeTab in DETAIL_TABS && d.yamlViewMode in YAML_VIEW_MODES && d.yamlEncoding in YAML_ENCODINGS
  }

  predicate CleanSurfaces(s: Surfaces) {
    && s.incidentFilter in INCIDENT_FILTERS
    && (s.helmRelease.Some? ==> s.helmRelease.value.name != "")
    && (s.rbac.Some? ==> s.rbac.value.riskBucket in RISK_BUCKETS)
  }

  predicate CleanWorkspace(w: Workspace) {
    && w.workspaceId != "" && w.viewMode in WORKSPACE_VIEW_MODES && w.initialHealthFilter in HEALTH_FILTERS
    && (w.selectedNode.Some? ==> CleanTreeNode(w.selectedNode.value))
    && (w.focusedResource.Some? ==> CleanRef(w.focusedResource.value) && w.restoreTarget.Some?)
    && (w.restoreTarget.Some? ==> CleanRef(w.restoreTarget.value))
    && (w.targetHelmRelease.Some? ==> w.targetHelmRelease.value.name != "")
    && (w.resources.Some? ==> CleanBrowser(w.resources.value))
    && (w.detail.Some? ==> CleanDetail(w.detail.value))
    && (w.surfaces.Some? ==> CleanSurfaces(w.surfaces.value))
  }

  /** A snapshot that every reader accepts as it is. */
  predicate Clean(s: Snapshot) {
    s.launcherView in LAUNCHER_VIEWS && (s.workspace.Some? ==> CleanWorkspace(s.workspace.value))
  }

  lemma Defaults()
    ensures "workspaces" in LAUNCHER_VIEWS && "overview" in WORKSPACE_VIEW_MODES && "all" in HEALTH_FILTERS
    ensures "section" in NODE_TYPES && "name" in SORT_COLUMNS && "ownership" in TOPOLOGY_MODES
    ensures "details" in DETAIL_TABS && "kubectl" in YAML_VIEW_MODES && "yaml" in YAML_ENCODINGS
    ensures "all" in INCIDENT_FILTERS && "all" in RISK_BUCKETS
  {
    assert LAUNCHER_VIEWS[0] == "workspaces" && WORKSPACE_VIEW_MODES[0] == "overview" && HEALTH_FILTERS[0] == "all";
    assert NODE_TYPES[0] == "section" && SORT_COLUMNS[0] == "name" && TOPOLOGY_MODES[0] == "ownership";
    assert DETAIL_TABS[0] == "details" && YAML_VIEW_MODES[0] == "kubectl" && YAML_ENCODINGS[0] == "yaml";
    assert INCIDENT_FILTERS[0] == "all" && RISK_BUCKETS[0] == "all";
  }

  lemma {:induction false} KindsAreClean(items: seq<Json>)
    ensures forall i :: 0 <= i < |Kinds(items)| ==> CleanKind(Kinds(items)[i])
  {
    if items != [] { KindsAreClean(items[1..]); }
  }

  lemma PickPicks(v: Option<Json>, values: seq<string>, fallback: string)
    requires fallback in values
    ensures Pick(v, values, fallback) in values
  {
  }

  lemma BrowserIsClean(v: Option<Json>)
    ensures SanitizeBrowser(v).Some? ==> CleanBrowser(SanitizeBrowser(v).value)
  {
    Defaults();
    if v.Some? && v.value.Obj? {
      var f := v.value.fields;
      PickPicks(Get(f, KHealthFilter), HEALTH_FILTERS, "all");
      PickPicks(Get(f, KSortColumn), SORT_COLUMNS, "name");
      PickPicks(Get(f, KTopologyMode), TOPOLOGY_MODES, "ownership");
      if Get(f, KSelectedKinds).Some? && Get(f, KSelectedKinds).value.Arr? {
        KindsAreClean(Get(f, KSelectedKinds).value.items);
      }
    }
  }

  lemma DetailIsClean(v: Option<Json>)
    ensures SanitizeDetail(v).Some? ==> CleanDetail(SanitizeDetail(v).value)
  {
    Defaults();
    if v.Some? && v.value.Obj? {
      var f := v.value.fields;
      PickPicks(Get(f, KActiveTab), DETAIL_TABS, "details");
      PickPicks(Get(f, KYamlViewMode), YAML_VIEW_MODES, "kubectl");
      PickPicks(Get(f, KYamlEncoding), YAML_ENCODINGS, "yaml");
    }
  }

  lemma SurfacesAreClean(v: Option<Json>)
    ensures SanitizeSurfaces(v).Some? ==> CleanSurfaces(SanitizeSurfaces(v).value)
  {
    Defaults();
    if v.Some? && v.value.Obj? {
      var f := v.value.fields;
      PickPicks(Get(f, KIncidentFilter), INCIDENT_FILTERS, "all");
      if Get(f, KRbac).Some? && Get(f, KRbac).value.Obj? {
        PickPicks(Get(Get(f, KRbac).value.fields, KRiskBucket), RISK_BUCKETS, "all");
      }
    }
  }

  lemma TreeNodeIsClean(v: Option<Json>)
    ensures SanitizeTreeNode(v).Some? ==> CleanTreeNode(SanitizeTreeNode(v).value)
  {
    Defaults();
    if v.Some? && v.value.Obj? { PickPicks(Get(v.value.fields, KType), NODE_TYPES, "section"); }
  }

  lemma RefIsClean(v: Option<Json>)
    ensures SanitizeRef(v).Some? ==> CleanRef(SanitizeRef(v).value)
  {
  }

  lemma TargetIsClean(v: Option<Json>)
    ensures SanitizeTarget(v).Some? ==> SanitizeTarget(v).value.name != ""
  {
  }

  lemma WorkspaceIsClean(v: Option<Json>)
    ensures SanitizeWorkspace(v).Some? ==> CleanWorkspace(SanitizeWorkspace(v).value)
  {
    Defaults();
    if SanitizeWorkspace(v).Some? {
      var f := v.value.fields;
      PickPicks(Get(f, KViewMode), WORKSPACE_VIEW_MODES, "overview");
      PickPicks(Get(f, KInitialHealthFilter), HEALTH_FILTERS, "all");
      TreeNodeIsClean(Get(f, KSelectedNode));
      RefIsClean(Get(f, KFocusedResource));
      RefIsClean(Get(f, KRestoreTarget));
      TargetIsClean(Get(f, KTargetHelmRelease));
      BrowserIsClean(Get(f, KResources));
      DetailIsClean(Get(f, KDetail));
      SurfacesAreClean(Get(f, KSurfaces));
    }
  }

  /** Whatever JSON is read, what sanitizing lets through is clean. */
  lemma SanitizedIsClean(v: Json)
    ensures Sanitize(v).Some? ==> Clean(Sanitize(v).value)
  {
    Defaults();
    if Sanitize(v).Some? {
      PickPicks(Get(v.fields, KLauncherView), LAUNCHER_VIEWS, "workspaces");
      WorkspaceIsClean(Get(v.fields, KWorkspace));
    }
  }

  // ---------------------------------------------------------------- clean parts are read back as they are

  lemma {:induction false} StringsOfTexts(texts: seq<string>)
    ensures Strings(Texts(texts)) == texts
  {
    if texts != [] {
      StringsOfTexts(texts[1..]);
      assert Texts(texts)[1..] == Texts(texts[1..]);
    }
  }

  lemma DiscoveredBack(d: DiscoveredKind)
    requires CleanDiscovered(d)
    ensures SanitizeDiscovered(Some(OfDiscovered(d))) == Some(d)
  {
    StringsOfTexts(d.shortNames);
  }

  lemma KindBack(k: KindSelection)
    requires CleanKind(k)
    ensures SanitizeKind(OfKind(k)) == Some(k)
  {
    match k
    case Supported(_) =>
    case Discovered(d) =>
      DiscoveredBack(d);
      NoKindIsEmpty();
  }

  lemma NoKindIsEmpty()
    ensures "" !in SUPPORTED_KINDS
  {
    assert forall i :: 0 <= i < |SUPPORTED_KINDS| ==> |SUPPORTED_KINDS[i]| > 0;
  }

  lemma {:induction false} KindsBack(kinds: seq<KindSelection>)
    requires forall i :: 0 <= i < |kinds| ==> CleanKind(kinds[i])
    ensures Kinds(OfKinds(kinds)) == kinds
  {
    if kinds != [] {
      KindBack(kinds[0]);
      KindsBack(kinds[1..]);
      assert OfKinds(kinds)[1..] == OfKinds(kinds[1..]);
      assert kinds == [kinds[0]] + kinds[1..];
    }
  }

  lemma TreeNodeBack(n: TreeNode)
    requires CleanTreeNode(n)
    ensures SanitizeTreeNode(Some(OfTreeNode(n))) == Some(n)
  {
    if n.resourceKind.Some? { DiscoveredBack(n.resourceKind.value); }
  }

  /** The text properties a resource reference is written with. */
  predicate RefTexts(f: Fields, r: ResourceRef) {
    && Get(f, KCluster) == Some(Str(r.cluster)) && Get(f, KKind) == Some(Str(r.kind))
    && Get(f, KName) == Some(Str(r.name)) && Get(f, KNamespace) == Some(Nullable(r.namespace))
    && Get(f, KApiVersion) == TextOf(r.apiVersion) && Get(f, KGroup) == TextOf(r.group)
    && Get(f, KVersion) == TextOf(r.version) && Get(f, KPlural) == TextOf(r.plural)
  }

  /** Two more properties of a record that had neither. */
  lemma PutTwo(f: Fields, first: Key, v: Option<Json>, second: Key, w: Option<Json>)
    requires first != second && Get(f, first).None? && Get(f, second).None?
    ensures var g := Put(Put(f, first, v), second, w);
            && Get(g, first) == v && Get(g, second) == w
            && forall k :: k != first && k != second ==> Get(g, k) == Get(f, k)
  {
  }

  predicate RefNames(f: Fields, r: ResourceRef) {
    && Get(f, KCluster) == Some(Str(r.cluster)) && Get(f, KKind) == Some(Str(r.kind))
    && Get(f, KName) == Some(Str(r.name)) && Get(f, KNamespace) == Some(Nullable(r.namespace))
    && Get(f, KNamespaced).None? && Get(f, KDynamic).None?
  }

  lemma GroupIsWritten(named: Fields, r: ResourceRef)
    requires RefNames(named, r) && Get(named, KApiVersion).None? && Get(named, KGroup).None?
    requires Get(named, KVersion).None? && Get(named, KPlural).None?
    ensures var f := Put(Put(named, KApiVersion, TextOf(r.apiVersion)), KGroup, TextOf(r.group));
            && RefNames(f, r) && Get(f, KApiVersion) == TextOf(r.apiVersion) && Get(f, KGroup) == TextOf(r.group)
            && Get(f, KVersion).None? && Get(f, KPlural).None?
  {
    PutTwo(named, KApiVersion, TextOf(r.apiVersion), KGroup, TextOf(r.group));
  }

  lemma VersionIsWritten(f: Fields, r: ResourceRef)
    requires RefNames(f, r) && Get(f, KApiVersion) == TextOf(r.apiVersion) && Get(f, KGroup) == TextOf(r.group)
    requires Get(f, KVersion).None? && Get(f, KPlural).None?
    ensures var g := Put(Put(f, KVersion, TextOf(r.version)), KPlural, TextOf(r.plural));
            RefTexts(g, r) && Get(g, KNamespaced).None? && Get(g, KDynamic).None?
  {
    PutTwo(f, KVersion, TextOf(r.version), KPlural, TextOf(r.plural));
  }

  lemma FlagsAreWritten(typed: Fields, r: ResourceRef)
    requires RefTexts(typed, r) && Get(typed, KNamespaced).None? && Get(typed, KDynamic).None?
    ensures var f := Put(Put(typed, KNamespaced, Flag(r.namespaced)), KDynamic, Flag(r.dynamic));
            RefTexts(f, r) && Get(f, KNamespaced) == Flag(r.namespaced) && Get(f, KDynamic) == Flag(r.dynamic)
  {
    PutTwo(typed, KNamespaced, Flag(r.namespaced), KDynamic, Flag(r.dynamic));
  }

  lemma RefIsRead(f: Fields, r: ResourceRef)
    requires CleanRef(r) && RefTexts(f, r)
    requires Get(f, KNamespaced) == Flag(r.namespaced) && Get(f, KDynamic) == Flag(r.dynamic)
    ensures SanitizeRef(Some(Obj(f))) == Some(r)
  {
  }

  lemma RefBack(r: ResourceRef)
    requires CleanRef(r)
    ensures SanitizeRef(Some(OfRef(r))) == Some(r)
  {
    GroupIsWritten(NamedRef(r), r);
    VersionIsWritten(GroupedRef(r), r);
    FlagsAreWritten(TypedRef(r), r);
    RefIsRead(FlaggedRef(r), r);
  }

  /** The properties a browser state is written with. */
  predicate BrowserFields(f: Fields, b: Browser) {
    BrowserScope(f, b) && BrowserView(f, b)
  }

  predicate BrowserScope(f: Fields, b: Browser) {
    && Get(f, KSelectedNamespaces) == Some(Arr(Texts(b.selectedNamespaces)))
    && Get(f, KSelectedKinds) == Some(Arr(OfKinds(b.selectedKinds)))
    && Get(f, KSearch) == Some(Str(b.search)) && Get(f, KGitOpsFilter) == Some(Str(b.gitOpsFilter))
    && Get(f, KHealthFilter) == Some(Str(b.healthFilter)) && Get(f, KSortColumn) == Some(Str(b.sortColumn))
    && Get(f, KSortDesc) == Some(Bool(b.sortDesc))
  }

  predicate BrowserView(f: Fields, b: Browser) {
    && Get(f, KPageIndex) == Some(Num(b.pageIndex as real)) && Get(f, KScopeEditorOpen) == Some(Bool(b.scopeEditorOpen))
    && Get(f, KCollapsedGroups) == Some(Arr(Texts(b.collapsedGroups)))
    && Get(f, KTopologyMode) == Some(Str(b.topologyMode)) && Get(f, KTopologyNodeId) == Some(Nullable(b.topologyNodeId))
    && Get(f, KMapPanelOpen) == Some(Bool(b.mapPanelOpen)) && Get(f, KTablePanelOpen) == Some(Bool(b.tablePanelOpen))
  }

  lemma BrowserScopeIsWritten(b: Browser)
    ensures BrowserScope(OfBrowser(b).fields, b)
  {
  }

  lemma BrowserViewIsWritten(b: Browser)
    ensures BrowserView(OfBrowser(b).fields, b)
  {
  }

  lemma BrowserIsRead(f: Fields, b: Browser)
    requires CleanBrowser(b) && BrowserFields(f, b)
    ensures SanitizeBrowser(Some(Obj(f))) == Some(b)
  {
    StringsOfTexts(b.selectedNamespaces);
    StringsOfTexts(b.collapsedGroups);
    KindsBack(b.selectedKinds);
    NullableBack(b.topologyNodeId);
  }

  lemma BrowserBack(b: Browser)
    requires CleanBrowser(b)
    ensures SanitizeBrowser(Some(OfBrowser(b))) == Some(b)
  {
    BrowserScopeIsWritten(b);
    BrowserViewIsWritten(b);
    BrowserIsRead(OfBrowser(b).fields, b);
  }

  lemma DetailBack(d: Detail)
    requires CleanDetail(d)
    ensures SanitizeDetail(Some(OfDetail(d))) == Some(d)
  {
  }

  lemma SurfacesBack(s: Surfaces)
    requires CleanSurfaces(s)
    ensures SanitizeSurfaces(Some(OfSurfaces(s))) == Some(s)
  {
  }

  lemma TreeNodeOrNullBack(o: Option<TreeNode>)
    requires o.Some? ==> CleanTreeNode(o.value)
    ensures SanitizeTreeNode(Some(TreeNodeOrNull(o))) == o
  {
    if o.Some? { TreeNodeBack(o.value); }
  }

  lemma RefOrNullBack(o: Option<ResourceRef>)
    requires o.Some? ==> CleanRef(o.value)
    ensures SanitizeRef(Some(RefOrNull(o))) == o
  {
    if o.Some? { RefBack(o.value); }
  }

  lemma TargetOrNullBack(o: Option<TargetRef>)
    requires o.Some? ==> o.value.name != ""
    ensures SanitizeTarget(Some(TargetOrNull(o))) == o
  {
  }

  lemma BrowserOrNullBack(o: Option<Browser>)
    requires o.Some? ==> CleanBrowser(o.value)
    ensures SanitizeBrowser(Some(BrowserOrNull(o))) == o
  {
    if o.Some? { BrowserBack(o.value); }
  }

  lemma DetailOrNullBack(o: Option<Detail>)
    requires o.Some? ==> CleanDetail(o.value)
    ensures SanitizeDetail(Some(DetailOrNull(o))) == o
  {
    if o.Some? { DetailBack(o.value); }
  }

  lemma SurfacesOrNullBack(o: Option<Surfaces>)
    requires o.Some? ==> CleanSurfaces(o.value)
    ensures SanitizeSurfaces(Some(SurfacesOrNull(o))) == o
  {
    if o.Some? { SurfacesBack(o.value); }
  }

  lemma TextsOrNullBack(o: Option<seq<string>>)
    ensures NamespaceOverride(Some(TextsOrNull(o))) == o
  {
    if o.Some? { StringsOfTexts(o.value); }
  }

  lemma NullableBack(o: Option<string>)
    ensures OptionalString(Some(Nullable(o))) == o
  {
  }

  /** The properties a workspace is written with. */
  predicate WorkspaceFields(f: Fields, w: Workspace) {
    WorkspaceTexts(f, w) && WorkspaceParts(f, w)
  }

  predicate WorkspaceTexts(f: Fields, w: Workspace) {
    && Get(f, KWorkspaceId) == Some(Str(w.workspaceId)) && Get(f, KViewMode) == Some(Str(w.viewMode))
    && Get(f, KExpandedSections) == Some(Arr(Texts(w.expandedSections)))
    && Get(f, KInitialSearch) == Some(Str(w.initialSearch))
    && Get(f, KInitialGitOpsFilter) == Some(Str(w.initialGitOpsFilter))
    && Get(f, KInitialHealthFilter) == Some(Str(w.initialHealthFilter))
    && Get(f, KNamespaceOverride) == Some(TextsOrNull(w.namespaceOverride))
    && Get(f, KTargetGitOps) == Some(Nullable(w.targetGitOps))
  }

  predicate WorkspaceParts(f: Fields, w: Workspace) {
    && Get(f, KSelectedNode) == Some(TreeNodeOrNull(w.selectedNode))
    && Get(f, KFocusedResource) == Some(RefOrNull(w.focusedResource))
    && Get(f, KRestoreTarget) == Some(RefOrNull(w.restoreTarget))
    && Get(f, KTargetHelmRelease) == Some(TargetOrNull(w.targetHelmRelease))
    && Get(f, KResources) == Some(BrowserOrNull(w.resources))
    && Get(f, KDetail) == Some(DetailOrNull(w.detail)) && Get(f, KSurfaces) == Some(SurfacesOrNull(w.surfaces))
  }

  lemma WorkspaceTextsAreWritten(w: Workspace)
    ensures WorkspaceTexts(OfWorkspace(w).fields, w)
  {
  }

  lemma WorkspacePartsAreWritten(w: Workspace)
    ensures WorkspaceParts(OfWorkspace(w).fields, w)
  {
  }

  /** The sanitized parts of a workspace record. */
  lemma WorkspacePartsAreRead(f: Fields, w: Workspace)
    requires CleanWorkspace(w) && WorkspaceFields(f, w)
    ensures SanitizeTreeNode(Get(f, KSelectedNode)) == w.selectedNode
    ensures SanitizeRef(Get(f, KFocusedResource)) == w.focusedResource
    ensures SanitizeRef(Get(f, KRestoreTarget)) == w.restoreTarget
    ensures SanitizeTarget(Get(f, KTargetHelmRelease)) == w.targetHelmRelease
    ensures SanitizeBrowser(Get(f, KResources)) == w.resources
    ensures SanitizeDetail(Get(f, KDetail)) == w.detail
    ensures SanitizeSurfaces(Get(f, KSurfaces)) == w.surfaces
  {
    TreeNodeOrNullBack(w.selectedNode);
    RefOrNullBack(w.focusedResource);
    RefOrNullBack(w.restoreTarget);
    TargetOrNullBack(w.targetHelmRelease);
    BrowserOrNullBack(w.resources);
    DetailOrNullBack(w.detail);
    SurfacesOrNullBack(w.surfaces);
  }

  lemma WorkspaceTextsAreRead(f: Fields, w: Workspace)
    requires CleanWorkspace(w) && WorkspaceFields(f, w)
    ensures StringArray(Get(f, KExpandedSections)) == w.expandedSections
    ensures NamespaceOverride(Get(f, KNamespaceOverride)) == w.namespaceOverride
    ensures OptionalString(Get(f, KTargetGitOps)) == w.targetGitOps
    ensures Pick(Get(f, KViewMode), WORKSPACE_VIEW_MODES, "overview") == w.viewMode
    ensures Pick(Get(f, KInitialHealthFilter), HEALTH_FILTERS, "all") == w.initialHealthFilter
    ensures StringValue(Get(f, KWorkspaceId)) == w.workspaceId && StringValue(Get(f, KInitialSearch)) == w.initialSearch
    ensures StringValue(Get(f, KInitialGitOpsFilter)) == w.initialGitOpsFilter
  {
    StringsOfTexts(w.expandedSections);
    TextsOrNullBack(w.namespaceOverride);
    NullableBack(w.targetGitOps);
  }

  lemma WorkspaceBack(w: Workspace)
    requires CleanWorkspace(w)
    ensures SanitizeWorkspace(Some(OfWorkspace(w))) == Some(w)
  {
    var f := OfWorkspace(w).fields;
    WorkspaceTextsAreWritten(w);
    WorkspacePartsAreWritten(w);
    WorkspaceIsRead(f, w);
  }

  lemma WorkspaceIsRead(f: Fields, w: Workspace)
    requires CleanWorkspace(w) && WorkspaceFields(f, w)
    ensures SanitizeWorkspace(Some(Obj(f))) == Some(w)
  {
    WorkspacePartsAreRead(f, w);
    WorkspaceTextsAreRead(f, w);
    assert WorkspaceOf(f) == w;
  }

  lemma WorkspaceOrNullBack(o: Option<Workspace>)
    requires o.Some? ==> CleanWorkspace(o.value)
    ensures SanitizeWorkspace(Some(WorkspaceOrNull(o))) == o
  {
    if o.Some? { WorkspaceBack(o.value); }
  }

  lemma SnapshotIsRead(f: Fields, s: Snapshot)
    requires s.launcherView in LAUNCHER_VIEWS
    requires Get(f, KVersion) == Some(Num(1.0)) && Get(f, KRuntime) == Some(Str("svelte"))
    requires Get(f, KLauncherView) == Some(Str(s.launcherView)) && SanitizeWorkspace(Get(f, KWorkspace)) == s.workspace
    ensures Sanitize(Obj(f)) == Some(s)
  {
  }

  lemma CleanIsReadBack(s: Snapshot)
    requires Clean(s)
    ensures Sanitize(OfSnapshot(s)) == Some(s)
  {
    WorkspaceOrNullBack(s.workspace);
    SnapshotIsRead(OfSnapshot(s).fields, s);
  }

  /** Sanitizing twice is sanitizing once, on any JSON value. */
  lemma SanitizeIsIdempotent(v: Json)
    requires Sanitize(v).Some?
    ensures Sanitize(OfSnapshot(Sanitize(v).value)) == Sanitize(v)
  {
    SanitizedIsClean(v);
    CleanIsReadBack(Sanitize(v).value);
  }

  /** A snapshot written as JSON is read back as it is if and only if it is clean. */
  lemma ReadBackWhenClean(s: Snapshot)
    ensures Sanitize(OfSnapshot(s)) == Some(s) <==> Clean(s)
  {
    SanitizedIsClean(OfSnapshot(s));
    if Clean(s) { CleanIsReadBack(s); }
  }

  /** A kind selection is read back if and only if it is a supported kind or a complete discovered one; any other is dropped. */
  lemma KindReadBackWhenClean(k: KindSelection)
    ensures SanitizeKind(OfKind(k)) == Some(k) <==> CleanKind(k)
    ensures SanitizeKind(OfKind(k)) == None <==> !CleanKind(k)
  {
    if CleanKind(k) { KindBack(k); } else { NoKindIsEmpty(); }
  }

  function CleanKinds(kinds: seq<KindSelection>): seq<KindSelection> {
    if kinds == [] then [] else (if CleanKind(kinds[0]) then [kinds[0]] else []) + CleanKinds(kinds[1..])
  }

  /** Of a list of selections exactly the clean ones survive, in order. */
  lemma {:induction false} CleanKindsSurvive(kinds: seq<KindSelection>)
    ensures Kinds(OfKinds(kinds)) == CleanKinds(kinds)
  {
    if kinds != [] {
      var items := OfKinds(kinds);
      KindReadBackWhenClean(kinds[0]);
      CleanKindsSurvive(kinds[1..]);
      assert items[0] == OfKind(kinds[0]) && items[1..] == OfKinds(kinds[1..]);
    }
  }

  /** The type of a selection allows a cluster-scoped kind by name; the sanitizer drops it. */
  lemma ClusterScopedKindIsDropped(kinds: seq<KindSelection>)
    ensures Kinds(OfKinds([Supported("Node")] + kinds)) == Kinds(OfKinds(kinds))
  {
    assert forall i :: 0 <= i < |SUPPORTED_KINDS| ==> |SUPPORTED_KINDS[i]| != 4;
    assert |"Node"| == 4;
    var all := [Supported("Node")] + kinds;
    assert all[0] == Supported("Node") && all[1..] == kinds;
    CleanKindsSurvive(all);
    CleanKindsSurvive(kinds);
  }

  // ---------------------------------------------------------------- storage text

  /** JSON.stringify and JSON.parse; a text that does not parse yields none. */
  datatype Codec = Codec(stringify: Json -> string, parse: string -> Option<Json>)

  /** The codec gives this snapshot's JSON back. */
  predicate Carries(codec: Codec, s: Snapshot) {
    var text := codec.stringify(OfSnapshot(s));
    text != "" && codec.parse(text) == Some(OfSnapshot(s))
  }

  function DefaultSnapshot(launcherView: string): Snapshot { Snapshot(launcherView, None) }

  function EncodeSnapshot(codec: Codec, v: Json): string {
    codec.stringify(OfSnapshot(Encoded(v)))
  }

  function DecodeSnapshot(codec: Codec, text: Option<string>): Option<Snapshot> {
    if !HasText(text) then None
    else
      match codec.parse(text.value)
      case None => None
      case Some(v) => Sanitize(v)
  }

  /** What encodePathStateSnapshot writes: the sanitized snapshot, or the default one. */
  function Encoded(v: Json): Snapshot { Sanitize(v).GetOr(DefaultSnapshot("workspaces")) }

  /** A snapshot the codec carries is decoded exactly if it is clean. */
  lemma CleanIsDecoded(codec: Codec, s: Snapshot)
    requires Carries(codec, s)
    ensures DecodeSnapshot(codec, Some(codec.stringify(OfSnapshot(s)))) == Some(s) <==> Clean(s)
  {
    ReadBackWhenClean(s);
  }

  /** What was encoded is decoded to its sanitized form, whatever it was. */
  lemma DecodeEncodeSnapshot(codec: Codec, v: Json)
    requires Carries(codec, Encoded(v))
    ensures DecodeSnapshot(codec, Some(EncodeSnapshot(codec, v))) == Some(Encoded(v))
    ensures Sanitize(v).Some? ==> DecodeSnapshot(codec, Some(EncodeSnapshot(codec, v))) == Sanitize(v)
  {
    Defaults();
    SanitizedIsClean(v);
    CleanIsDecoded(codec, Encoded(v));
  }

  // ---------------------------------------------------------------- the address

  /** encodeURIComponent accepts every text of whole characters. */
  function Address(workspaceId: string, viewMode: string): seq<string> {
    ["workspace", Percent.Encode(workspaceId), Percent.Encode(viewMode)]
  }

  function PathParts(s: Snapshot): (parts: seq<string>)
    ensures |parts| > 0
  {
    match s.workspace
    case None => [if s.launcherView == "settings" then "settings" else "workspaces"]
    case Some(w) => Address(w.workspaceId, w.viewMode)
  }

  function Path(s: Snapshot): string { "#/" + Join(PathParts(s), '/') }

  function NonEmpty(parts: seq<string>): seq<string> {
    if parts == [] then [] else (if parts[0] != "" then [parts[0]] else []) + NonEmpty(parts[1..])
  }

  /** The non-empty pieces between slashes. */
  function Segments(path: string): seq<string> { NonEmpty(Split(path, '/')) }

  function Parts(hash: string): seq<string> {
    Segments(if hash != "" && hash[0] == '#' then hash[1..] else hash)
  }

  function DefaultWorkspace(workspaceId: string): Workspace {
    Workspace(workspaceId, "overview", None, [], "", "", "all", None, None, None, None, None, None, None, None)
  }

  function AtWorkspace(workspaceId: string, viewMode: string): Snapshot {
    Snapshot("workspaces", Some(DefaultWorkspace(workspaceId).(viewMode := viewMode)))
  }

  function ParseParts(parts: seq<string>): Option<Snapshot> {
    if parts == ["workspaces"] then Some(DefaultSnapshot("workspaces"))
    else if parts == ["settings"] then Some(DefaultSnapshot("settings"))
    else if |parts| >= 3 && parts[0] == "workspace" then
      match (Percent.Decode(parts[1]), Percent.Decode(parts[2]))
      case (Some(workspaceId), Some(viewMode)) =>
        if workspaceId == "" then None
        else Some(AtWorkspace(workspaceId, Pick(Some(Str(viewMode)), WORKSPACE_VIEW_MODES, "overview")))
      case _ => None
    else None
  }

  function ParseHash(hash: string): Option<Snapshot> { ParseParts(Parts(hash)) }

  lemma {:induction false} NonEmptyKeeps(parts: seq<string>)
    requires forall i :: 0 <= i < |parts| ==> parts[i] != ""
    ensures NonEmpty(parts) == parts
  {
    if parts != [] { NonEmptyKeeps(parts[1..]); }
  }

  /** A path is cut into its parts again. */
  lemma PartsOfPath(parts: seq<string>)
    requires |parts| > 0 && forall i :: 0 <= i < |parts| ==> parts[i] != "" && '/' !in parts[i]
    ensures Parts("#/" + Join(parts, '/')) == parts
  {
    var joined := Join(parts, '/');
    SplitJoin(parts, '/');
    SplitAt("", '/', joined);
    AfterHash(joined);
    NonEmptyKeeps(parts);
    NonEmptySkips(parts);
  }

  lemma AfterHash(rest: string)
    ensures "#/" + rest != "" && ("#/" + rest)[0] == '#' && ("#/" + rest)[1..] == "" + ['/'] + rest
  {
  }

  lemma NonEmptySkips(parts: seq<string>)
    ensures NonEmpty([""] + parts) == NonEmpty(parts)
  {
    var all := [""] + parts;
    assert all[0] == "" && all[1..] == parts;
  }

  /** What an address keeps of a snapshot: the launcher view, or the workspace and its view mode. */
  function Coarse(s: Snapshot): Snapshot {
    match s.workspace
    case None => DefaultSnapshot(s.launcherView)
    case Some(w) => AtWorkspace(w.workspaceId, w.viewMode)
  }

  predicate Whole(parts: seq<string>) {
    forall i :: 0 <= i < |parts| ==> parts[i] != "" && '/' !in parts[i]
  }

  lemma AddressIsWhole(workspaceId: string, viewMode: string)
    requires workspaceId != "" && viewMode != ""
    ensures Whole(Address(workspaceId, viewMode))
  {
    Percent.EncodeIsWritten(workspaceId);
    Percent.EncodeIsWritten(viewMode);
    assert '/' !in "workspace";
  }

  lemma WorkspaceIsParsed(parts: seq<string>, workspaceId: string, viewMode: string)
    requires |parts| >= 3 && parts[0] == "workspace" && workspaceId != ""
    requires Percent.Decode(parts[1]) == Some(workspaceId) && Percent.Decode(parts[2]) == Some(viewMode)
    ensures ParseParts(parts) == Some(AtWorkspace(workspaceId, if viewMode in WORKSPACE_VIEW_MODES then viewMode else "overview"))
  {
  }

  lemma AddressIsParsed(workspaceId: string, viewMode: string)
    requires workspaceId != "" && viewMode in WORKSPACE_VIEW_MODES
    ensures ParseParts(Address(workspaceId, viewMode)) == Some(AtWorkspace(workspaceId, viewMode))
  {
    Percent.DecodeEncode(workspaceId);
    Percent.DecodeEncode(viewMode);
    WorkspaceIsParsed(Address(workspaceId, viewMode), workspaceId, viewMode);
  }

  lemma LauncherIsParsed(launcherView: string)
    requires launcherView in LAUNCHER_VIEWS
    ensures ParseParts([launcherView]) == Some(DefaultSnapshot(launcherView))
    ensures Whole([launcherView]) && (launcherView == "settings" || launcherView == "workspaces")
  {
    assert launcherView == "settings" || launcherView == "workspaces";
    assert |"settings"| != |"workspaces"|;
  }

  /** A clean snapshot's address is parsed back to just that. */
  lemma AddressIsParsedBack(s: Snapshot)
    requires Clean(s)
    ensures ParseHash(Path(s)) == Some(Coarse(s))
  {
    match s.workspace
    case None =>
      LauncherIsParsed(s.launcherView);
      PartsOfPath([s.launcherView]);
    case Some(w) =>
      NoModeIsEmpty();
      AddressIsWhole(w.workspaceId, w.viewMode);
      AddressIsParsed(w.workspaceId, w.viewMode);
      PartsOfPath(Address(w.workspaceId, w.viewMode));
  }

  lemma NoModeIsEmpty()
    ensures "" !in WORKSPACE_VIEW_MODES
  {
    assert forall i :: 0 <= i < |WORKSPACE_VIEW_MODES| ==> |WORKSPACE_VIEW_MODES[i]| > 0;
  }
}
