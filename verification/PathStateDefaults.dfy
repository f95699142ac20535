/** What sanitizing puts where a snapshot has nothing it can use: src/lib/path-state.ts. */
module PathStateDefaults {
  import opened Wrappers
  import opened PathState
  import Percent = PercentEncoding

  // ---------------------------------------------------------------- snapshots

  /** Exactly the records of version 1 that this frontend wrote are taken as snapshots. */
  lemma SnapshotIsAccepted(v: Json)
    ensures Sanitize(v).Some?
       <==> && v.Obj? && KVersion in v.fields && v.fields[KVersion] == Num(1.0)
            && KRuntime in v.fields && v.fields[KRuntime] == Str("svelte")
  {
  }

  /** A launcher view that is none opens the list of workspaces; a workspace without an identifier is none. */
  lemma SnapshotDefaults(f: Fields)
    requires Sanitize(Obj(f)).Some?
    ensures Get(f, KLauncherView) == Some(Str("settings")) <==> Sanitize(Obj(f)).value.launcherView == "settings"
    ensures Sanitize(Obj(f)).value.launcherView != "settings" ==> Sanitize(Obj(f)).value.launcherView == "workspaces"
    ensures Sanitize(Obj(f)).value.workspace.Some?
       <==> && KWorkspace in f && f[KWorkspace].Obj? && KWorkspaceId in f[KWorkspace].fields
            && f[KWorkspace].fields[KWorkspaceId].Str? && f[KWorkspace].fields[KWorkspaceId].text != ""
  {
    assert LAUNCHER_VIEWS[1] == "settings";
  }

  // ---------------------------------------------------------------- parts

  ghost predicate OneOf(v: Json, values: seq<string>) { v.Str? && v.text in values }

  /** A whole number that is not negative. */
  ghost predicate Whole(v: Json) { v.Num? && v.number >= 0.0 && v.number == v.number.Floor as real }

  /** A value that a reader cannot use counts as a missing property, whatever it is. */
  lemma UnusableIsMissing(v: Json, values: seq<string>, fallback: string, flag: bool)
    ensures !OneOf(v, values) ==> Pick(Some(v), values, fallback) == Pick(None, values, fallback) == fallback
    ensures !v.Str? ==> OptionalString(Some(v)) == OptionalString(None) && StringValue(Some(v)) == StringValue(None) == ""
    ensures !v.Bool? ==> BooleanValue(Some(v), flag) == BooleanValue(None, flag) == flag
    ensures !Whole(v) ==> NonNegativeInteger(Some(v)) == NonNegativeInteger(None) == 0
    ensures !v.Arr? ==> StringArray(Some(v)) == StringArray(None) == [] && NamespaceOverride(Some(v)) == NamespaceOverride(None)
    ensures !v.Obj? ==> AsRecord(Some(v)) == AsRecord(None)
  {
  }

  /** The table's state with nothing to go by. */
  lemma BrowserDefaults()
    ensures SanitizeBrowser(Some(Obj(map[])))
         == Some(Browser([], [], "", "", "all", "name", false, 0, false, [], "ownership", None, false, true))
  {
  }

  lemma DetailDefaults()
    ensures SanitizeDetail(Some(Obj(map[])))
         == Some(Detail("details", false, false, "", "", true, false, "kubectl", "yaml", false))
  {
  }

  ghost predicate HasText(f: Fields, key: Key) { key in f && f[key].Str? && f[key].text != "" }

  lemma SurfacesDefaults()
    ensures SanitizeSurfaces(Some(Obj(map[]))) == Some(Surfaces("all", "", None, None, None))
    ensures SanitizeRbac(Some(Obj(map[]))) == Some(Rbac("all", None))
  {
  }

  // ---------------------------------------------------------------- workspaces

  /** A resource reference needs a cluster, a kind and a name. */
  ghost predicate NamedResource(v: Json) {
    v.Obj? && HasText(v.fields, KCluster) && HasText(v.fields, KKind) && HasText(v.fields, KName)
  }

  /** A workspace of which only the identifier is known is the one a bare address opens. */
  lemma WorkspaceDefaults(workspaceId: string)
    requires workspaceId != ""
    ensures SanitizeWorkspace(Some(Obj(map[KWorkspaceId := Str(workspaceId)]))) == Some(
              Workspace(workspaceId, "overview", None, [], "", "", "all", None, None, None, None, None, None, None, None))
  {
  }

  lemma ResourceIsNamed(v: Option<Json>)
    ensures SanitizeRef(v).Some? <==> v.Some? && NamedResource(v.value)
  {
  }

  /** Without a usable resource to restore, the focused one is restored. */
  lemma FocusIsRestored(f: Fields)
    requires KRestoreTarget in f ==> !NamedResource(f[KRestoreTarget])
    ensures WorkspaceOf(f).restoreTarget == SanitizeRef(Get(f, KFocusedResource)) == WorkspaceOf(f).focusedResource
  {
    ResourceIsNamed(Get(f, KRestoreTarget));
  }

  // ---------------------------------------------------------------- lists

  /** A list is read item by item, and of an item only a text stays. */
  lemma {:induction false} StringsSurvive(items: seq<Json>, more: seq<Json>)
    ensures Strings(items + more) == Strings(items) + Strings(more)
  {
    if items == [] {
      assert items + more == more;
    } else {
      StringsSurvive(items[1..], more);
      assert (items + more)[1..] == items[1..] + more;
    }
  }

  lemma OneString(v: Json)
    ensures Strings([v]) == if v.Str? then [v.text] else []
  {
    assert [v][1..] == [];
  }

  // ---------------------------------------------------------------- addresses

  /** An address that names a workspace opens it in that view, or in the overview if there is no such
      view; what follows the view is ignored. */
  lemma ForeignAddressIsParsed(parts: seq<string>, workspaceId: string, viewMode: string)
    requires |parts| >= 3 && parts[0] == "workspace" && workspaceId != ""
    requires parts[1] == Percent.Encode(workspaceId) && parts[2] == Percent.Encode(viewMode)
    ensures ParseParts(parts) == Some(AtWorkspace(workspaceId, if viewMode in WORKSPACE_VIEW_MODES then viewMode else "overview"))
  {
    Percent.DecodeEncode(workspaceId);
    Percent.DecodeEncode(viewMode);
    WorkspaceIsParsed(parts, workspaceId, viewMode);
  }

  /** An address of one or two parts opens the launcher or nothing. */
  lemma ShortAddress(parts: seq<string>)
    requires |parts| < 3
    ensures parts == ["workspaces"] ==> ParseParts(parts) == Some(Snapshot("workspaces", None))
    ensures parts == ["settings"] ==> ParseParts(parts) == Some(Snapshot("settings", None))
    ensures parts != ["workspaces"] && parts != ["settings"] ==> ParseParts(parts).None?
  {
  }
}
