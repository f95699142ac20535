/**
 inheritGitOpsOwnership (src/lib/gitops-ownership-evidence.ts): rows without GitOps ownership take
 it from their nearest owned ancestor. The specification walks the plain list; the program walks a
 restricted name map with a cycle guard and caches the rows it makes.

 `ref` is the identity of a row object: the program makes every new row with a new `ref`, and two
 rows are the same object when they are equal, `ref` included.
 */
module GitOpsOwnership {
  import opened Text
  import opened Wrappers

  datatype Owner = Owner(
    provider: string,
    kind: string,
    name: string,
    namespace: Option<string>,
    confidence: string,
    provenance: Option<string>,
    partial: Option<bool>)

  datatype Resource = Resource(
    ref: nat,
    namespace: Option<string>,
    name: string,
    ownerRef: Option<string>,
    gitOpsOwner: Option<Owner>,
    argoApp: Option<string>,
    rest: string)                 // the other fields, which are copied unread

  function EffectiveOwner(r: Resource): Option<Owner> {
    if r.gitOpsOwner.Some? then r.gitOpsOwner
    else if r.argoApp.Some? && Trim(r.argoApp.value) != ""
    then Some(Owner("argo", "Application", Trim(r.argoApp.value), None, "metadata", Some("argocd-name-annotation"), None))
    else None
  }

  predicate Adapted(o: Owner) {
    || (o.provider == "argo" && o.kind == "Application")
    || (o.provider == "flux" && (o.kind == "Kustomization" || o.kind == "HelmRelease"))
  }

  /** gitOpsOwnership(r) is not null. */
  predicate Owned(r: Resource) {
    var owner := EffectiveOwner(r);
    owner.Some? && Trim(owner.value.name) != "" && Adapted(owner.value)
  }

  /** The key of a name or an owner reference in a namespace. */
  function Key(namespace: Option<string>, name: string): string {
    namespace.GetOr("") + "/" + name
  }

  // ---------------------------------------------------------------- the specification

  /** The last row of the list with this namespace and name. */
  function Find(rs: seq<Resource>, key: string): (at: Option<nat>)
    ensures at.Some? ==> at.value < |rs| && Key(rs[at.value].namespace, rs[at.value].name) == key
    ensures at.None? ==> forall i :: 0 <= i < |rs| ==> Key(rs[i].namespace, rs[i].name) != key
  {
    if rs == [] then None
    else
      var last := |rs| - 1;
      if Key(rs[last].namespace, rs[last].name) == key then Some(last) else Find(rs[..last], key)
  }

  function Parent(rs: seq<Resource>, r: Resource): (at: Option<nat>)
    ensures at.Some? ==> at.value < |rs|
  {
    if HasText(r.ownerRef) then Find(rs, Key(r.namespace, r.ownerRef.value)) else None
  }

  /** Where the n-th ancestor of `r` is in the list. */
  function Ancestor(rs: seq<Resource>, r: Resource, n: nat): (at: Option<nat>)
    requires n > 0
    ensures at.Some? ==> at.value < |rs|
  {
    if n == 1 then Parent(rs, r)
    else
      var before := Ancestor(rs, r, n - 1);
      if before.None? then None else Parent(rs, rs[before.value])
  }

  predicate OwnedAt(rs: seq<Resource>, r: Resource, n: nat)
    requires n > 0
  {
    var at := Ancestor(rs, r, n);
    at.Some? && Owned(rs[at.value])
  }

  /** The n-th ancestor is owned and no nearer one is. */
  ghost predicate NearestAt(rs: seq<Resource>, r: Resource, n: nat) {
    n > 0 && OwnedAt(rs, r, n) && forall m :: 0 < m < n ==> !OwnedAt(rs, r, m)
  }

  /** The same fields, whatever the identity. */
  predicate SameContent(a: Resource, b: Resource) {
    a.(ref := 0) == b.(ref := 0)
  }

  /** The owner value a row inherits: that of its nearest owned ancestor, if the row is not owned
      itself. The ancestor may be owned through its argoApp alone, and then the value is None. */
  ghost function Inherited(rs: seq<Resource>, r: Resource): Option<Option<Owner>> {
    if !Owned(r) && exists n :: NearestAt(rs, r, n) then
      var n :| NearestAt(rs, r, n);
      Some(rs[Ancestor(rs, r, n).value].gitOpsOwner)
    else None
  }

  /** A row as the list should show it. */
  ghost predicate Shows(rs: seq<Resource>, r: Resource, row: Resource) {
    match Inherited(rs, r)
    case None => row == r
    case Some(owner) => SameContent(row, r.(gitOpsOwner := owner))
  }

  // ---------------------------------------------------------------- ancestors

  lemma {:induction false} AncestorsCompose(rs: seq<Resource>, r: Resource, m: nat, k: nat)
    requires m > 0 && k > 0 && Ancestor(rs, r, m).Some?
    ensures Ancestor(rs, rs[Ancestor(rs, r, m).value], k) == Ancestor(rs, r, m + k)
  {
    if k > 1 {
      AncestorsCompose(rs, r, m, k - 1);
    }
  }

  lemma {:induction false} LostAncestors(rs: seq<Resource>, r: Resource, m: nat, n: nat)
    requires 0 < m <= n && Ancestor(rs, r, m).None?
    ensures Ancestor(rs, r, n).None?
  {
    if m < n {
      LostAncestors(rs, r, m, n - 1);
    }
  }

  lemma NearestIsUnique(rs: seq<Resource>, r: Resource, m: nat, n: nat)
    requires NearestAt(rs, r, m) && NearestAt(rs, r, n)
    ensures m == n
  {
  }

  lemma InheritedFrom(rs: seq<Resource>, r: Resource, n: nat)
    requires !Owned(r) && NearestAt(rs, r, n)
    ensures Inherited(rs, r) == Some(rs[Ancestor(rs, r, n).value].gitOpsOwner)
  {
    forall m | NearestAt(rs, r, m) ensures m == n { NearestIsUnique(rs, r, m, n); }
  }

  lemma {:induction false} NearestExists(rs: seq<Resource>, r: Resource, n: nat)
    requires n > 0 && OwnedAt(rs, r, n)
    ensures exists m: nat :: m <= n && NearestAt(rs, r, m)
  {
    if m :| 0 < m < n && OwnedAt(rs, r, m) {
      NearestExists(rs, r, m);
    } else {
      assert NearestAt(rs, r, n);
    }
  }

  /** The rows on the chain of `r` up to its n-th ancestor. */
  ghost function Chain(rs: seq<Resource>, r: Resource, n: nat): set<Resource> {
    if n == 0 then {r}
    else Chain(rs, r, n - 1) + (if Ancestor(rs, r, n).Some? then {rs[Ancestor(rs, r, n).value]} else {})
  }

  /** The m-th ancestor of r is x. */
  ghost predicate IsAncestor(rs: seq<Resource>, r: Resource, m: nat, x: Resource) {
    m > 0 && Ancestor(rs, r, m).Some? && rs[Ancestor(rs, r, m).value] == x
  }

  lemma {:induction false} ChainMembers(rs: seq<Resource>, r: Resource, n: nat, x: Resource)
    requires x in Chain(rs, r, n)
    ensures x == r || exists m: nat :: m <= n && IsAncestor(rs, r, m, x)
  {
    if n > 0 && x in Chain(rs, r, n - 1) {
      ChainMembers(rs, r, n - 1, x);
    } else if n > 0 {
      assert IsAncestor(rs, r, n, x);
    }
  }

  lemma {:induction false} ChainHas(rs: seq<Resource>, r: Resource, m: nat, n: nat)
    requires m <= n && (m > 0 ==> Ancestor(rs, r, m).Some?)
    ensures (if m == 0 then r else rs[Ancestor(rs, r, m).value]) in Chain(rs, r, n)
    decreases n - m
  {
    if m < n {
      ChainHas(rs, r, m, n - 1);
    }
  }

  /** A chain that comes back to a row it visited never leaves the rows it visited. */
  lemma {:induction false} CycleStays(rs: seq<Resource>, r: Resource, k: nat, n: nat)
    requires n > 0 && Ancestor(rs, r, n).Some?
    requires Ancestor(rs, r, k + 1).Some? && rs[Ancestor(rs, r, k + 1).value] in Chain(rs, r, k)
    ensures rs[Ancestor(rs, r, n).value] in Chain(rs, r, k)
  {
    if n <= k {
      ChainHas(rs, r, n, k);
    } else if n > 1 {
      var before := Ancestor(rs, r, n - 1);
      CycleStays(rs, r, k, n - 1);
      var x := rs[before.value];
      ChainMembers(rs, r, k, x);
      if x == r {
        assert Ancestor(rs, r, n) == Ancestor(rs, r, 1);
        ChainStep(rs, r, k, 0);
      } else {
        var m: nat :| m <= k && IsAncestor(rs, r, m, x);
        assert Ancestor(rs, r, n) == Ancestor(rs, r, m + 1);
        ChainStep(rs, r, k, m);
      }
    }
  }

  lemma ChainStep(rs: seq<Resource>, r: Resource, k: nat, m: nat)
    requires m <= k && Ancestor(rs, r, m + 1).Some?
    requires Ancestor(rs, r, k + 1).Some? && rs[Ancestor(rs, r, k + 1).value] in Chain(rs, r, k)
    ensures rs[Ancestor(rs, r, m + 1).value] in Chain(rs, r, k)
  {
    if m < k {
      ChainHas(rs, r, m + 1, k);
    }
  }

  /** When no row visited is owned and the chain leaves the list or comes back, no ancestor is owned. */
  lemma NoOwnerBeyond(rs: seq<Resource>, r: Resource, k: nat, n: nat)
    requires forall x :: x in Chain(rs, r, k) ==> !Owned(x)
    requires Ancestor(rs, r, k + 1).None? || rs[Ancestor(rs, r, k + 1).value] in Chain(rs, r, k)
    ensures !NearestAt(rs, r, n)
  {
    if n > 0 && Ancestor(rs, r, n).Some? {
      if Ancestor(rs, r, k + 1).None? {
        if n > k { LostAncestors(rs, r, k + 1, n); }
        ChainHas(rs, r, n, k);
      } else {
        CycleStays(rs, r, k, n);
      }
    }
  }

  // ---------------------------------------------------------------- names and namespaces

  /** A row without a namespace counts as one in the empty namespace. */
  function NamespaceOf(r: Resource): string { r.namespace.GetOr("") }

  /** Namespaces hold no slash. */
  ghost predicate SlashlessNamespaces(rs: seq<Resource>) {
    forall i :: 0 <= i < |rs| ==> '/' !in NamespaceOf(rs[i])
  }

  lemma FirstSlash(namespace: string, name: string)
    requires '/' !in namespace
    ensures IndexOf(namespace + ['/'] + name, '/') == |namespace|
  {
    var s := namespace + ['/'] + name;
    assert s[|namespace|] == '/';
    assert forall i :: 0 <= i < |namespace| ==> s[i] == namespace[i];
  }

  /** Then the key of a name in a namespace tells both apart. */
  lemma KeyTellsApart(a: Option<string>, aName: string, b: Option<string>, bName: string)
    requires '/' !in a.GetOr("") && '/' !in b.GetOr("")
    ensures Key(a, aName) == Key(b, bName) <==> a.GetOr("") == b.GetOr("") && aName == bName
  {
    var left, right := a.GetOr("") + ['/'] + aName, b.GetOr("") + ['/'] + bName;
    FirstSlash(a.GetOr(""), aName);
    FirstSlash(b.GetOr(""), bName);
    assert Key(a, aName) == left && Key(b, bName) == right;
    assert left[..|a.GetOr("")|] == a.GetOr("") && left[|a.GetOr("")| + 1..] == aName;
    assert right[..|b.GetOr("")|] == b.GetOr("") && right[|b.GetOr("")| + 1..] == bName;
  }

  /** Row j has the name r refers to as its owner, in r's own namespace. */
  ghost predicate NamesOwner(rs: seq<Resource>, r: Resource, j: nat) {
    j < |rs| && r.ownerRef.Some? && r.ownerRef.value != "" && rs[j].name == r.ownerRef.value && NamespaceOf(rs[j]) == NamespaceOf(r)
  }

  /** Row j is the last one that r can mean. */
  ghost predicate IsParent(rs: seq<Resource>, r: Resource, j: nat) {
    NamesOwner(rs, r, j) && forall k :: j < k < |rs| ==> !NamesOwner(rs, r, k)
  }

  /** The parent of a row is the last row of that name in the row's own namespace, and there is none without one. */
  lemma ParentIs(rs: seq<Resource>, r: Resource)
    requires SlashlessNamespaces(rs) && '/' !in NamespaceOf(r)
    ensures Parent(rs, r).Some? ==> IsParent(rs, r, Parent(rs, r).value)
    ensures Parent(rs, r).None? ==> forall j :: !NamesOwner(rs, r, j)
  {
    if HasText(r.ownerRef) { FindIs(rs, r); }
  }

  lemma {:induction false} FindIs(rs: seq<Resource>, r: Resource)
    requires SlashlessNamespaces(rs) && '/' !in NamespaceOf(r) && HasText(r.ownerRef)
    ensures var at := Find(rs, Key(r.namespace, r.ownerRef.value));
            if at.Some? then IsParent(rs, r, at.value) else forall j :: !NamesOwner(rs, r, j)
  {
    if rs != [] {
      var init, last := rs[..|rs| - 1], |rs| - 1;
      FindIs(init, r);
      KeyTellsApart(rs[last].namespace, rs[last].name, r.namespace, r.ownerRef.value);
      forall j | 0 <= j < last ensures NamesOwner(rs, r, j) <==> NamesOwner(init, r, j) {
        assert rs[j] == init[j];
      }
    }
  }

  lemma ParentIsUnique(rs: seq<Resource>, r: Resource, j: nat)
    requires SlashlessNamespaces(rs) && '/' !in NamespaceOf(r) && IsParent(rs, r, j)
    ensures Parent(rs, r) == Some(j)
  {
    ParentIs(rs, r);
  }

  /** A path from an unowned row, parent by parent through unowned rows, to an owned one. */
  ghost predicate OwnerPath(rs: seq<Resource>, path: seq<nat>) {
    && |path| > 1 && (forall k :: 0 <= k < |path| ==> path[k] < |rs|)
    && (forall k :: 0 <= k < |path| - 1 ==> IsParent(rs, rs[path[k]], path[k + 1]) && !Owned(rs[path[k]]))
    && Owned(rs[path[|path| - 1]])
  }

  lemma {:induction false} PathAncestors(rs: seq<Resource>, path: seq<nat>, k: nat)
    requires SlashlessNamespaces(rs) && OwnerPath(rs, path) && 0 < k < |path|
    ensures Ancestor(rs, rs[path[0]], k) == Some(path[k])
  {
    if k > 1 { PathAncestors(rs, path, k - 1); }
    assert IsParent(rs, rs[path[k - 1]], path[k - 1 + 1]);
    ParentIsUnique(rs, rs[path[k - 1]], path[k]);
  }

  lemma PathIsNearest(rs: seq<Resource>, path: seq<nat>)
    requires SlashlessNamespaces(rs) && OwnerPath(rs, path)
    ensures !Owned(rs[path[0]]) && NearestAt(rs, rs[path[0]], |path| - 1)
    ensures Ancestor(rs, rs[path[0]], |path| - 1) == Some(path[|path| - 1])
  {
    forall k | 0 < k < |path| ensures Ancestor(rs, rs[path[0]], k) == Some(path[k]) {
      PathAncestors(rs, path, k);
    }
    assert !Owned(rs[path[0]]) by { assert IsParent(rs, rs[path[0]], path[0 + 1]) && !Owned(rs[path[0]]); }
    forall k | 0 < k < |path| - 1 ensures !OwnedAt(rs, rs[path[0]], k) {
      assert IsParent(rs, rs[path[k]], path[k + 1]) && !Owned(rs[path[k]]);
    }
  }

  lemma {:induction false} AncestorsPath(rs: seq<Resource>, i: nat, n: nat) returns (path: seq<nat>)
    requires SlashlessNamespaces(rs) && i < |rs| && (n > 0 ==> Ancestor(rs, rs[i], n).Some?)
    ensures |path| == n + 1 && path[0] == i && forall k :: 0 <= k < |path| ==> path[k] < |rs|
    ensures forall k :: 0 < k < |path| ==> Ancestor(rs, rs[i], k) == Some(path[k])
    ensures forall k :: 0 <= k < n ==> IsParent(rs, rs[path[k]], path[k + 1])
  {
    if n == 0 {
      path := [i];
    } else {
      var before := AncestorsPath(rs, i, n - 1);
      var last := before[n - 1];
      path := before + [Ancestor(rs, rs[i], n).value];
      assert Parent(rs, rs[last]) == Ancestor(rs, rs[i], n);
      ParentIs(rs, rs[last]);
      assert forall k :: 0 <= k < n ==> path[k] == before[k];
    }
  }

  lemma NearestHasPath(rs: seq<Resource>, i: nat, n: nat) returns (path: seq<nat>)
    requires SlashlessNamespaces(rs) && i < |rs| && !Owned(rs[i]) && NearestAt(rs, rs[i], n)
    ensures OwnerPath(rs, path) && path[0] == i
  {
    path := AncestorsPath(rs, i, n);
    forall k | 0 <= k < n ensures !Owned(rs[path[k]]) {
      if k > 0 { assert !OwnedAt(rs, rs[i], k); }
    }
  }

  /** The row in place of row i: with the owner at the end of its owner path, or the very row if it has none. */
  ghost predicate ShowsByPath(rs: seq<Resource>, i: nat, row: Resource)
    requires i < |rs|
  {
    && (forall path :: OwnerPath(rs, path) && path[0] == i ==>
          SameContent(row, rs[i].(gitOpsOwner := rs[path[|path| - 1]].gitOpsOwner)))
    && ((forall path :: OwnerPath(rs, path) ==> path[0] != i) ==> row == rs[i])
  }

  /** Every row of an owner path lies in one namespace. */
  lemma {:induction false} PathStaysInNamespace(rs: seq<Resource>, path: seq<nat>, k: nat)
    requires OwnerPath(rs, path) && k < |path|
    ensures NamespaceOf(rs[path[k]]) == NamespaceOf(rs[path[0]])
  {
    if k > 0 {
      PathStaysInNamespace(rs, path, k - 1);
      assert IsParent(rs, rs[path[k - 1]], path[k - 1 + 1]);
    }
  }

  lemma ShownByPath(rs: seq<Resource>, i: nat, row: Resource)
    requires SlashlessNamespaces(rs) && i < |rs| && Shows(rs, rs[i], row)
    ensures ShowsByPath(rs, i, row)
  {
    forall path | OwnerPath(rs, path) && path[0] == i
      ensures SameContent(row, rs[i].(gitOpsOwner := rs[path[|path| - 1]].gitOpsOwner))
    {
      PathIsNearest(rs, path);
      InheritedFrom(rs, rs[i], |path| - 1);
    }
    if !Owned(rs[i]) && exists n: nat :: NearestAt(rs, rs[i], n) {
      var n: nat :| NearestAt(rs, rs[i], n);
      var path := NearestHasPath(rs, i, n);
    }
  }

  /** An owner value that a row did not have comes from an owned row of its own namespace. */
  lemma OwnerOfOwnNamespace(rs: seq<Resource>, i: nat, row: Resource)
    requires i < |rs| && ShowsByPath(rs, i, row)
    ensures row == rs[i] || exists j :: 0 <= j < |rs| && NamespaceOf(rs[j]) == NamespaceOf(rs[i]) && Owned(rs[j])
                                       && row.gitOpsOwner == rs[j].gitOpsOwner
  {
    if row != rs[i] {
      var path :| OwnerPath(rs, path) && path[0] == i;
      PathStaysInNamespace(rs, path, |path| - 1);
    }
  }

  // ---------------------------------------------------------------- what counts as owned

  /** A row is owned by an Argo CD Application or a Flux Kustomization or HelmRelease with a name; what gitOpsOwner
      names takes precedence over argoApp, even where it is none of these. */
  lemma OwnedMeans(r: Resource)
    ensures r.gitOpsOwner.Some? ==>
              (Owned(r) <==>
                 && Trim(r.gitOpsOwner.value.name) != ""
                 && (r.gitOpsOwner.value.provider, r.gitOpsOwner.value.kind) in
                    {("argo", "Application"), ("flux", "Kustomization"), ("flux", "HelmRelease")})
    ensures r.gitOpsOwner.None? ==> (Owned(r) <==> r.argoApp.Some? && Trim(r.argoApp.value) != "")
  {
    if r.gitOpsOwner.None? && r.argoApp.Some? { TrimTwice(r.argoApp.value); }
  }

  // ---------------------------------------------------------------- the program

  /** A cached row and the owner value it was made for; JSON.stringify of an owner is taken to tell
      owners apart exactly when their values differ. */
  datatype CachedRow = CachedRow(ownerKey: Option<Owner>, row: Resource)

  /** The names some row of the list refers to as its owner. */
  ghost predicate IsOwnerKey(rs: seq<Resource>, key: string) {
    exists i :: 0 <= i < |rs| && HasText(rs[i].ownerRef) && Key(rs[i].namespace, rs[i].ownerRef.value) == key
  }

  /** The name map holds, for exactly the names rows refer to, the last row of that name. */
  ghost predicate Restricts(byName: map<string, Resource>, rs: seq<Resource>) {
    && (forall key :: key in byName ==> Find(rs, key).Some? && byName[key] == rs[Find(rs, key).value])
    && (forall key :: IsOwnerKey(rs, key) && Find(rs, key).Some? ==> key in byName)
  }

  method CollectOwnerKeys(rs: seq<Resource>) returns (keys: set<string>)
    ensures forall key :: key in keys <==> IsOwnerKey(rs, key)
  {
    keys := {};
    var i := 0;
    while i < |rs|
      invariant 0 <= i <= |rs|
      invariant forall key :: key in keys <==>
                  exists j :: 0 <= j < i && HasText(rs[j].ownerRef) && Key(rs[j].namespace, rs[j].ownerRef.value) == key
    {
      if HasText(rs[i].ownerRef) {
        keys := keys + {Key(rs[i].namespace, rs[i].ownerRef.value)};
      }
      i := i + 1;
    }
  }

  method IndexOwners(rs: seq<Resource>, keys: set<string>) returns (byName: map<string, Resource>)
    requires forall key :: key in keys <==> IsOwnerKey(rs, key)
    ensures Restricts(byName, rs)
  {
    byName := map[];
    var i := 0;
    while i < |rs|
      invariant 0 <= i <= |rs|
      invariant byName.Keys <= keys
      invariant forall key :: key in byName ==> Find(rs[..i], key).Some? && byName[key] == rs[Find(rs[..i], key).value]
      invariant forall key :: key in keys && Find(rs[..i], key).Some? ==> key in byName
    {
      assert rs[..i + 1][..i] == rs[..i];
      var key := Key(rs[i].namespace, rs[i].name);
      if key in keys {
        byName := byName[key := rs[i]];
      }
      i := i + 1;
    }
    assert rs[..i] == rs;
  }

  /** The walk stands at the k-th ancestor, `seen` is the chain so far and nothing on it is owned. */
  ghost predicate Walked(rs: seq<Resource>, r: Resource, k: nat, current: Resource, seen: set<Resource>) {
    && seen == Chain(rs, r, k) && current in rs && current in seen
    && (if k == 0 then current == r else Ancestor(rs, r, k).Some? && current == rs[Ancestor(rs, r, k).value])
    && forall x :: x in seen ==> !Owned(x)
  }

  /** The map finds the owner that the whole list has. */
  lemma LookUp(rs: seq<Resource>, byName: map<string, Resource>, current: Resource)
    requires Restricts(byName, rs) && current in rs && HasText(current.ownerRef)
    ensures var key := Key(current.namespace, current.ownerRef.value);
            && (key in byName <==> Parent(rs, current).Some?)
            && (key in byName ==> byName[key] == rs[Parent(rs, current).value])
  {
    assert IsOwnerKey(rs, Key(current.namespace, current.ownerRef.value));
  }

  lemma WalkEnds(rs: seq<Resource>, r: Resource, k: nat, current: Resource, seen: set<Resource>)
    requires Walked(rs, r, k, current, seen)
    requires Parent(rs, current).None? || rs[Parent(rs, current).value] in seen
    ensures forall n :: !NearestAt(rs, r, n)
  {
    assert Ancestor(rs, r, k + 1) == Parent(rs, current);
    forall n ensures !NearestAt(rs, r, n) { NoOwnerBeyond(rs, r, k, n); }
  }

  lemma WalkFinds(rs: seq<Resource>, r: Resource, k: nat, current: Resource, seen: set<Resource>)
    requires Walked(rs, r, k, current, seen)
    requires Parent(rs, current).Some? && Owned(rs[Parent(rs, current).value])
    ensures NearestAt(rs, r, k + 1) && Ancestor(rs, r, k + 1) == Parent(rs, current)
  {
    assert Ancestor(rs, r, k + 1) == Parent(rs, current);
    forall m | 0 < m < k + 1
      ensures !OwnedAt(rs, r, m)
    {
      if Ancestor(rs, r, m).Some? { ChainHas(rs, r, m, k); }
    }
  }

  lemma WalkOn(rs: seq<Resource>, r: Resource, k: nat, current: Resource, seen: set<Resource>)
    requires Walked(rs, r, k, current, seen)
    requires Parent(rs, current).Some? && !Owned(rs[Parent(rs, current).value])
    ensures var parent := rs[Parent(rs, current).value]; Walked(rs, r, k + 1, parent, seen + {parent})
  {
    assert Ancestor(rs, r, k + 1) == Parent(rs, current);
  }

  /** The walk to the nearest owned ancestor. */
  method NearestOwner(ghost rs: seq<Resource>, byName: map<string, Resource>, resource: Resource)
    returns (owner: Option<Resource>)
    requires Restricts(byName, rs) && resource in rs && !Owned(resource)
    ensures owner.Some? ==> exists n :: NearestAt(rs, resource, n) && owner.value == rs[Ancestor(rs, resource, n).value]
    ensures owner.None? ==> forall n :: !NearestAt(rs, resource, n)
  {
    var seen := {resource};
    var current := resource;
    ghost var k := 0;
    while HasText(current.ownerRef)
      invariant Walked(rs, resource, k, current, seen)
      decreases byName.Values - seen
    {
      var key := Key(current.namespace, current.ownerRef.value);
      LookUp(rs, byName, current);
      if key !in byName || byName[key] in seen {
        WalkEnds(rs, resource, k, current, seen);
        return None;
      }
      var parent := byName[key];
      if Owned(parent) {
        WalkFinds(rs, resource, k, current, seen);
        return Some(parent);
      }
      WalkOn(rs, resource, k, current, seen);
      assert parent in byName.Values && parent !in seen;
      seen := seen + {parent};
      current := parent;
      k := k + 1;
    }
    WalkEnds(rs, resource, k, current, seen);
    return None;
  }

  class OwnershipRows {
    var inheritedRows: map<Resource, CachedRow>
    var nextRef: nat

    /** Every cached row is its key with the owner it was made for. */
    ghost predicate Valid()
      reads this
    {
      forall r :: r in inheritedRows ==> SameContent(inheritedRows[r].row, r.(gitOpsOwner := inheritedRows[r].ownerKey))
    }

    constructor (firstRef: nat)
      ensures Valid() && inheritedRows == map[]
    {
      inheritedRows, nextRef := map[], firstRef;
    }

    /** The row of one resource. An owner value seen before gives the row made for it. */
    method RowFor(ghost rs: seq<Resource>, byName: map<string, Resource>, resource: Resource) returns (row: Resource)
      requires Valid() && Restricts(byName, rs) && resource in rs
      modifies this
      ensures Valid() && Shows(rs, resource, row)
      ensures Caches(Inherited(rs, resource), resource, row, old(inheritedRows), inheritedRows)
      ensures forall r :: r != resource ==> SameEntry(r, old(inheritedRows), inheritedRows)
    {
      if Owned(resource) {
        return resource;
      }
      var owner := NearestOwner(rs, byName, resource);
      if owner.None? {
        return resource;
      }
      ghost var n :| NearestAt(rs, resource, n) && owner.value == rs[Ancestor(rs, resource, n).value];
      InheritedFrom(rs, resource, n);
      var ownerKey := owner.value.gitOpsOwner;
      if resource in inheritedRows && inheritedRows[resource].ownerKey == ownerKey {
        return inheritedRows[resource].row;
      }
      row := resource.(gitOpsOwner := ownerKey, ref := nextRef);
      nextRef := nextRef + 1;
      inheritedRows := inheritedRows[resource := CachedRow(ownerKey, row)];
    }

    /** Every row is shown as specified. A row that inherits is cached with its owner value, and
        is the row the cache already held if it was made for an equal owner value. */
    method Inherit(resources: seq<Resource>) returns (rows: seq<Resource>)
      requires Valid()
      modifies this
      ensures Valid() && |rows| == |resources|
      ensures forall i :: 0 <= i < |rows| ==> Shows(resources, resources[i], rows[i])
      ensures forall i :: 0 <= i < |rows| ==>
                Caches(Inherited(resources, resources[i]), resources[i], rows[i], old(inheritedRows), inheritedRows)
      ensures SlashlessNamespaces(resources) ==> forall i :: 0 <= i < |rows| ==> ShowsByPath(resources, i, rows[i])
    {
      rows := InheritRows(resources);
      if SlashlessNamespaces(resources) {
        forall i | 0 <= i < |rows| ensures ShowsByPath(resources, i, rows[i]) {
          ShownByPath(resources, i, rows[i]);
        }
      }
    }

    method InheritRows(resources: seq<Resource>) returns (rows: seq<Resource>)
      requires Valid()
      modifies this
      ensures Valid() && |rows| == |resources|
      ensures forall i :: 0 <= i < |rows| ==> Shows(resources, resources[i], rows[i])
      ensures forall i :: 0 <= i < |rows| ==>
                Caches(Inherited(resources, resources[i]), resources[i], rows[i], old(inheritedRows), inheritedRows)
    {
      var ownerKeys := CollectOwnerKeys(resources);
      if ownerKeys == {} {
        NothingInherited(resources);
        return resources;
      }
      var byName := IndexOwners(resources, ownerKeys);
      if byName == map[] {
        NothingInherited(resources);
        return resources;
      }
      rows := InheritFrom(resources, byName);
    }

    method InheritFrom(resources: seq<Resource>, byName: map<string, Resource>) returns (rows: seq<Resource>)
      requires Valid() && Restricts(byName, resources)
      modifies this
      ensures Valid() && |rows| == |resources|
      ensures forall i :: 0 <= i < |rows| ==> Shows(resources, resources[i], rows[i])
      ensures CachesAll(resources, resources, rows, old(inheritedRows), inheritedRows)
    {
      rows := [];
      while |rows| < |resources|
        invariant Valid() && |rows| <= |resources|
        invariant ShowsFirst(resources, rows)
        invariant CachesAll(resources[..|rows|], resources, rows, old(inheritedRows), inheritedRows)
      {
        ghost var before := inheritedRows;
        var row := RowFor(resources, byName, resources[|rows|]);
        CachesOneMore(resources, rows, row, old(inheritedRows), before, inheritedRows);
        ShowsOneMore(resources, rows, row);
        rows := rows + [row];
      }
      assert resources[..|rows|] == resources;
    }
  }

  /** The first rows, as specified. */
  ghost predicate ShowsFirst(rs: seq<Resource>, rows: seq<Resource>)
    requires |rows| <= |rs|
  {
    forall i :: 0 <= i < |rows| ==> Shows(rs, rs[i], rows[i])
  }

  lemma ShowsOneMore(rs: seq<Resource>, rows: seq<Resource>, row: Resource)
    requires |rows| < |rs| && ShowsFirst(rs, rows) && Shows(rs, rs[|rows|], row)
    ensures ShowsFirst(rs, rows + [row])
  {
  }

  /** What has been cached once the rows of `done` are made. */
  ghost predicate CachesAll(done: seq<Resource>, rs: seq<Resource>, rows: seq<Resource>,
                            before: map<Resource, CachedRow>, after: map<Resource, CachedRow>)
    requires |done| == |rows|
  {
    && (forall i :: 0 <= i < |rows| ==> Caches(Inherited(rs, done[i]), done[i], rows[i], before, after))
    && (forall r :: r !in done ==> SameEntry(r, before, after))
  }

  lemma CachesOneMore(rs: seq<Resource>, rows: seq<Resource>, row: Resource,
                      before: map<Resource, CachedRow>, mid: map<Resource, CachedRow>, after: map<Resource, CachedRow>)
    requires |rows| < |rs| && CachesAll(rs[..|rows|], rs, rows, before, mid)
    requires Caches(Inherited(rs, rs[|rows|]), rs[|rows|], row, mid, after)
    requires forall r :: r != rs[|rows|] ==> SameEntry(r, mid, after)
    ensures CachesAll(rs[..|rows| + 1], rs, rows + [row], before, after)
  {
    var k := |rows|;
    var done := rs[..k];
    assert rs[..k + 1] == done + [rs[k]];
    if rs[k] !in done {
      assert SameEntry(rs[k], before, mid);
    } else {
      var j :| 0 <= j < k && done[j] == rs[k];
      assert Caches(Inherited(rs, done[j]), done[j], rows[j], before, mid);
    }
    forall i | 0 <= i < k ensures Caches(Inherited(rs, done[i]), done[i], rows[i], before, after) {
      assert Caches(Inherited(rs, done[i]), done[i], rows[i], before, mid);
      if done[i] != rs[k] { assert SameEntry(done[i], mid, after); }
    }
    forall r | r !in done + [rs[k]] ensures SameEntry(r, before, after) {
      assert SameEntry(r, before, mid) && SameEntry(r, mid, after);
    }
  }

  ghost predicate SameEntry(r: Resource, before: map<Resource, CachedRow>, after: map<Resource, CachedRow>) {
    (r in before <==> r in after) && (r in before ==> before[r] == after[r])
  }

  /** What a call leaves in the cache for a resource and its row. */
  ghost predicate Caches(inherited: Option<Option<Owner>>, resource: Resource, row: Resource,
                         before: map<Resource, CachedRow>, after: map<Resource, CachedRow>)
  {
    inherited.Some? ==>
      && resource in after && after[resource] == CachedRow(inherited.value, row)
      && (resource in before && before[resource].ownerKey == inherited.value ==> row == before[resource].row)
  }

  /** When no row refers to a row of the list, nothing is inherited. */
  lemma NothingInherited(rs: seq<Resource>)
    requires forall key :: IsOwnerKey(rs, key) ==> Find(rs, key).None?
    ensures forall i :: 0 <= i < |rs| ==> Inherited(rs, rs[i]) == None
  {
    forall i, n: nat | 0 <= i < |rs| ensures !NearestAt(rs, rs[i], n) {
      if HasText(rs[i].ownerRef) {
        assert IsOwnerKey(rs, Key(rs[i].namespace, rs[i].ownerRef.value));
      }
      assert Ancestor(rs, rs[i], 1).None?;
      if n > 0 { LostAncestors(rs, rs[i], 1, n); }
    }
  }

  // ---------------------------------------------------------------- inheriting twice

  /** `rows` are the rows the list should show. */
  ghost predicate ShowsAll(rs: seq<Resource>, rows: seq<Resource>) {
    |rows| == |rs| && forall i :: 0 <= i < |rs| ==> Shows(rs, rs[i], rows[i])
  }

  /** Inheriting changes no name, so every chain stays where it was. */
  ghost predicate SameNames(a: Resource, b: Resource) {
    a.namespace == b.namespace && a.name == b.name && a.ownerRef == b.ownerRef
  }

  lemma {:induction false} FindSame(rs: seq<Resource>, rows: seq<Resource>, key: string)
    requires |rows| == |rs| && forall i :: 0 <= i < |rs| ==> SameNames(rs[i], rows[i])
    ensures Find(rs, key) == Find(rows, key)
  {
    if rs != [] {
      var last := |rs| - 1;
      assert SameNames(rs[last], rows[last]);
      FindSame(rs[..last], rows[..last], key);
    }
  }

  lemma {:induction false} AncestorSame(rs: seq<Resource>, rows: seq<Resource>, i: nat, n: nat)
    requires |rows| == |rs| && forall i :: 0 <= i < |rs| ==> SameNames(rs[i], rows[i])
    requires i < |rs| && n > 0
    ensures Ancestor(rs, rs[i], n) == Ancestor(rows, rows[i], n)
  {
    if n == 1 {
      if HasText(rs[i].ownerRef) { FindSame(rs, rows, Key(rs[i].namespace, rs[i].ownerRef.value)); }
    } else {
      AncestorSame(rs, rows, i, n - 1);
      var before := Ancestor(rs, rs[i], n - 1);
      if before.Some? {
        var j := before.value;
        assert SameNames(rs[j], rows[j]);
        if HasText(rs[j].ownerRef) { FindSame(rs, rows, Key(rs[j].namespace, rs[j].ownerRef.value)); }
      }
    }
  }

  lemma ShownNames(rs: seq<Resource>, rows: seq<Resource>)
    requires ShowsAll(rs, rows)
    ensures forall i :: 0 <= i < |rs| ==> SameNames(rs[i], rows[i])
  {
    forall i | 0 <= i < |rs| ensures SameNames(rs[i], rows[i]) {
      assert Shows(rs, rs[i], rows[i]);
    }
  }

  lemma OwnedRowStays(rs: seq<Resource>, rows: seq<Resource>, i: nat)
    requires ShowsAll(rs, rows) && i < |rs| && Owned(rs[i])
    ensures rows[i] == rs[i]
  {
    assert Shows(rs, rs[i], rows[i]);
  }

  /** An owner found on the chain in the list is at the same place on the chain of shown rows. */
  lemma OwnedAtBoth(rs: seq<Resource>, rows: seq<Resource>, i: nat, n: nat)
    requires ShowsAll(rs, rows) && i < |rs| && n > 0 && OwnedAt(rs, rs[i], n)
    ensures OwnedAt(rows, rows[i], n)
    ensures rows[Ancestor(rows, rows[i], n).value] == rs[Ancestor(rs, rs[i], n).value]
  {
    ShownNames(rs, rows);
    AncestorSame(rs, rows, i, n);
    OwnedRowStays(rs, rows, Ancestor(rs, rs[i], n).value);
  }

  /** The nearest owner among the shown rows is no further than the one in the list. */
  lemma OwnerNotBefore(rs: seq<Resource>, rows: seq<Resource>, i: nat, m: nat, n: nat)
    requires ShowsAll(rs, rows) && i < |rs| && NearestAt(rows, rows[i], m) && NearestAt(rs, rs[i], n)
    ensures m <= n
  {
    if n < m { OwnedAtBoth(rs, rows, i, n); }
  }

  /** An owner beyond the m-th ancestor is an owner above that ancestor. */
  lemma OwnerAbove(rs: seq<Resource>, r: Resource, m: nat, k: nat)
    requires m > 0 && k > 0 && Ancestor(rs, r, m).Some?
    ensures OwnedAt(rs, r, m + k) <==> OwnedAt(rs, rs[Ancestor(rs, r, m).value], k)
  {
    AncestorsCompose(rs, r, m, k);
  }

  /** Below an unowned ancestor that inherits, the nearest owner is that ancestor's. */
  lemma SameNearest(rs: seq<Resource>, r: Resource, m: nat, k: nat, n: nat)
    requires m > 0 && Ancestor(rs, r, m).Some? && !OwnedAt(rs, r, m)
    requires NearestAt(rs, rs[Ancestor(rs, r, m).value], k) && NearestAt(rs, r, n) && m <= n
    ensures n == m + k
  {
    OwnerAbove(rs, r, m, k);
    if m < n < m + k {
      OwnerAbove(rs, r, m, n - m);
    }
  }

  lemma NearestThrough(rs: seq<Resource>, r: Resource, m: nat, k: nat) returns (n: nat)
    requires m > 0 && Ancestor(rs, r, m).Some? && NearestAt(rs, rs[Ancestor(rs, r, m).value], k)
    ensures NearestAt(rs, r, n)
  {
    OwnerAbove(rs, r, m, k);
    NearestExists(rs, r, m + k);
    n :| n <= m + k && NearestAt(rs, r, n);
  }

  /** When an unowned m-th ancestor inherits, and no owner is nearer, the row below it inherits
      the same value. */
  lemma InheritsThrough(rs: seq<Resource>, r: Resource, m: nat, k: nat, n: nat)
    requires m > 0 && Ancestor(rs, r, m).Some? && !OwnedAt(rs, r, m) && !Owned(r)
    requires NearestAt(rs, rs[Ancestor(rs, r, m).value], k) && NearestAt(rs, r, n) && m <= n
    ensures Inherited(rs, r) == Inherited(rs, rs[Ancestor(rs, r, m).value])
  {
    SameNearest(rs, r, m, k, n);
    AncestorsCompose(rs, r, m, k);
    InheritedFrom(rs, rs[Ancestor(rs, r, m).value], k);
    InheritedFrom(rs, r, n);
  }

  lemma InheritorShown(rs: seq<Resource>, rows: seq<Resource>, j: nat) returns (k: nat)
    requires ShowsAll(rs, rows) && j < |rs| && !Owned(rs[j]) && Owned(rows[j])
    ensures NearestAt(rs, rs[j], k) && Inherited(rs, rs[j]) == Some(rows[j].gitOpsOwner)
  {
    assert Shows(rs, rs[j], rows[j]);
    assert Inherited(rs, rs[j]).Some?;
    k :| NearestAt(rs, rs[j], k);
  }

  /** An owned row on a chain of shown rows either was owned in the list or inherited its owner
      value, and the row the chain starts from inherited the same value. */
  lemma OwnerOnChain(rs: seq<Resource>, rows: seq<Resource>, i: nat, m: nat)
    requires ShowsAll(rs, rows) && i < |rs| && !Owned(rs[i]) && NearestAt(rows, rows[i], m)
    ensures Inherited(rs, rs[i]) == Some(rows[Ancestor(rows, rows[i], m).value].gitOpsOwner)
  {
    ShownNames(rs, rows);
    AncestorSame(rs, rows, i, m);
    var j := Ancestor(rs, rs[i], m).value;
    if Owned(rs[j]) {
      NearestExists(rs, rs[i], m);
      var n: nat :| n <= m && NearestAt(rs, rs[i], n);
      OwnerNotBefore(rs, rows, i, m, n);
      OwnedRowStays(rs, rows, j);
      InheritedFrom(rs, rs[i], n);
    } else {
      var k := InheritorShown(rs, rows, j);
      var n := NearestThrough(rs, rs[i], m, k);
      OwnerNotBefore(rs, rows, i, m, n);
      InheritsThrough(rs, rs[i], m, k, n);
    }
  }

  /** Inheriting is idempotent: the rows shown for the rows of a list have the same content. */
  lemma InheritingTwice(rs: seq<Resource>, rows: seq<Resource>, again: seq<Resource>)
    requires ShowsAll(rs, rows) && ShowsAll(rows, again)
    ensures forall i :: 0 <= i < |rs| ==> SameContent(again[i], rows[i])
  {
    forall i | 0 <= i < |rs| ensures SameContent(again[i], rows[i]) {
      assert Shows(rs, rs[i], rows[i]) && Shows(rows, rows[i], again[i]);
      if Inherited(rows, rows[i]).Some? {
        var m :| NearestAt(rows, rows[i], m);
        InheritedFrom(rows, rows[i], m);
        if Owned(rs[i]) {
          assert false;
        } else {
          OwnerOnChain(rs, rows, i, m);
        }
      }
    }
  }

  /** A row with a nearest owned ancestor is owned after inheriting exactly when that ancestor names
      its owner in gitOpsOwner, or the row's own argoApp counts once gitOpsOwner is cleared. */
  lemma InheritingOwns(rs: seq<Resource>, r: Resource, row: Resource, n: nat)
    requires Shows(rs, r, row) && !Owned(r) && NearestAt(rs, r, n)
    ensures Owned(row) <==> rs[Ancestor(rs, r, n).value].gitOpsOwner.Some? || Owned(r.(gitOpsOwner := None))
  {
    InheritedFrom(rs, r, n);
  }

  /** So ownership is not always inherited: an ancestor owned through its argoApp alone leaves the
      row below it without an owner. */
  lemma ArgoAppIsNotInherited()
    ensures var parent := Resource(0, Some("ns"), "api", None, None, Some("app"), "");
            var child := Resource(1, Some("ns"), "api-0", Some("api"), None, None, "");
            var rs := [parent, child];
            Owned(parent) && NearestAt(rs, child, 1)
              && forall row :: Shows(rs, child, row) ==> !Owned(row)
  {
    var parent := Resource(0, Some("ns"), "api", None, None, Some("app"), "");
    var child := Resource(1, Some("ns"), "api-0", Some("api"), None, None, "");
    var rs := [parent, child];
    assert TrimStart("app") == "app" && TrimEnd("app") == "app";
    assert Find(rs[..1], "ns/api") == Some(0);
    assert Key(Some("ns"), "api") == "ns/api" && Key(Some("ns"), "api-0") == "ns/api-0";
    assert "ns/api"[5] == 'i' && |"ns/api"| == 6 && |"ns/api-0"| == 8;
    assert Find(rs, "ns/api") == Some(0);
    assert OwnedAt(rs, child, 1);
    assert NearestAt(rs, child, 1);
    InheritedFrom(rs, child, 1);
  }
}
