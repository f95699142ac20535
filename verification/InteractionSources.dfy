/** The code that owns a DOM node, found with a cache: src/lib/interaction-sources.ts. */
module InteractionSources {
  import opened Wrappers
  import opened Text

  datatype Location = Location(file: string, line: nat)

  datatype Attributes = Attributes(tag: string, testId: Option<string>, role: Option<string>)

  /** A node and its ancestors, which stay as they are. `ref` is its identity; only elements have attributes. */
  datatype Node = Node(ref: nat, location: Option<Location>, element: Option<Attributes>, parent: Option<Node>)

  type Cache = map<Node, string>

  const UNATTRIBUTED := "(unattributed)"

  function OwnSource(n: Node): (source: Option<string>)
    ensures source.Some? ==> source.value != ""
  {
    if n.location.Some? then Some(n.location.value.file + ":" + Decimal(n.location.value.line)) else None
  }

  function FallbackSource(n: Node): Option<string> {
    if n.element.None? then None
    else if HasText(n.element.value.testId) then Some("[data-testid=" + n.element.value.testId.value + "]")
    else if HasText(n.element.value.role) then Some("[role=" + n.element.value.role.value + "]")
    else None
  }

  // ---------------------------------------------------------------- the search without a cache

  function NearestLocation(n: Node): (source: Option<string>)
    ensures source.Some? ==> source.value != ""
  {
    if OwnSource(n).Some? then OwnSource(n)
    else if n.parent.Some? then NearestLocation(n.parent.value)
    else None
  }

  function NearestFallback(n: Node): Option<string> {
    FallbackSource(n).OrElse(if n.parent.Some? then NearestFallback(n.parent.value) else None)
  }

  function Source(node: Option<Node>): string {
    if node.None? then UNATTRIBUTED
    else NearestLocation(node.value).OrElse(NearestFallback(node.value)).GetOr(UNATTRIBUTED)
  }

  // ---------------------------------------------------------------- what the search finds

  /** The node k levels up. */
  function Ancestor(n: Node, k: nat): Option<Node> {
    if k == 0 then Some(n) else if n.parent.Some? then Ancestor(n.parent.value, k - 1) else None
  }

  predicate HasLocation(n: Node) { n.location.Some? }

  /** A test id or a role with text in it. */
  predicate HasLabel(n: Node) { n.element.Some? && (HasText(n.element.value.testId) || HasText(n.element.value.role)) }

  /** The node k levels up has the property, and none below it. */
  ghost predicate NearestWith(n: Node, k: nat, p: Node -> bool) {
    && Ancestor(n, k).Some? && p(Ancestor(n, k).value)
    && forall i: nat :: i < k && Ancestor(n, i).Some? ==> !p(Ancestor(n, i).value)
  }

  ghost predicate NoneHas(n: Node, p: Node -> bool) {
    forall i: nat :: Ancestor(n, i).Some? ==> !p(Ancestor(n, i).value)
  }

  lemma NearestFurther(n: Node, k: nat, p: Node -> bool)
    requires k > 0 && NearestWith(n, k, p)
    ensures !p(n) && n.parent.Some? && NearestWith(n.parent.value, k - 1, p)
  {
    assert Ancestor(n, 0) == Some(n);
    forall i: nat | i < k - 1 && Ancestor(n.parent.value, i).Some? ensures !p(Ancestor(n.parent.value, i).value) {
      assert Ancestor(n, i + 1) == Ancestor(n.parent.value, i);
    }
  }

  lemma NoneFurther(n: Node, p: Node -> bool)
    requires NoneHas(n, p)
    ensures !p(n) && (n.parent.Some? ==> NoneHas(n.parent.value, p))
  {
    assert Ancestor(n, 0) == Some(n);
    if n.parent.Some? {
      forall i: nat | Ancestor(n.parent.value, i).Some? ensures !p(Ancestor(n.parent.value, i).value) {
        assert Ancestor(n, i + 1) == Ancestor(n.parent.value, i);
      }
    }
  }

  lemma {:induction false} LocationFound(n: Node, k: nat)
    requires NearestWith(n, k, HasLocation)
    ensures var at := Ancestor(n, k).value.location.value; NearestLocation(n) == Some(at.file + ":" + Decimal(at.line))
  {
    if k > 0 {
      NearestFurther(n, k, HasLocation);
      LocationFound(n.parent.value, k - 1);
    }
  }

  lemma {:induction false} NoLocationFound(n: Node)
    requires NoneHas(n, HasLocation)
    ensures NearestLocation(n).None?
  {
    NoneFurther(n, HasLocation);
    if n.parent.Some? { NoLocationFound(n.parent.value); }
  }

  lemma {:induction false} LabelFound(n: Node, k: nat)
    requires NearestWith(n, k, HasLabel)
    ensures var named := Ancestor(n, k).value.element.value;
            NearestFallback(n) == Some(if HasText(named.testId) then "[data-testid=" + named.testId.value + "]"
                                       else "[role=" + named.role.value + "]")
  {
    if k > 0 {
      NearestFurther(n, k, HasLabel);
      LabelFound(n.parent.value, k - 1);
    }
  }

  lemma {:induction false} NoLabelFound(n: Node)
    requires NoneHas(n, HasLabel)
    ensures NearestFallback(n).None?
  {
    NoneFurther(n, HasLabel);
    if n.parent.Some? { NoLabelFound(n.parent.value); }
  }

  /** A node is named by the nearest location above it; without any, by the nearest test id or role, the test id before
      the role of the same element; and else it is not attributed. */
  lemma SourceIsNearest(n: Node)
    ensures forall k: nat :: NearestWith(n, k, HasLocation) ==>
              var at := Ancestor(n, k).value.location.value; Source(Some(n)) == at.file + ":" + Decimal(at.line)
    ensures forall k: nat :: NoneHas(n, HasLocation) && NearestWith(n, k, HasLabel) ==>
              var named := Ancestor(n, k).value.element.value;
              Source(Some(n)) == if HasText(named.testId) then "[data-testid=" + named.testId.value + "]"
                                 else "[role=" + named.role.value + "]"
    ensures NoneHas(n, HasLocation) && NoneHas(n, HasLabel) ==> Source(Some(n)) == "(unattributed)"
  {
    forall k: nat | NearestWith(n, k, HasLocation)
      ensures var at := Ancestor(n, k).value.location.value; NearestLocation(n) == Some(at.file + ":" + Decimal(at.line))
    {
      LocationFound(n, k);
    }
    if NoneHas(n, HasLocation) {
      NoLocationFound(n);
      forall k: nat | NearestWith(n, k, HasLabel)
        ensures var named := Ancestor(n, k).value.element.value;
                NearestFallback(n) == Some(if HasText(named.testId) then "[data-testid=" + named.testId.value + "]"
                                           else "[role=" + named.role.value + "]")
      {
        LabelFound(n, k);
      }
      if NoneHas(n, HasLabel) { NoLabelFound(n); }
    }
  }

  // ---------------------------------------------------------------- the search with the cache

  function Known(cache: Cache, n: Node): Option<string> {
    if n in cache then Some(cache[n]) else OwnSource(n)
  }

  /** The nodes walked from here: up to the first one whose location is known, or to the root. */
  function Walk(cache: Cache, n: Node): (walked: seq<Node>)
    ensures walked != [] && walked[0] == n
  {
    if HasText(Known(cache, n)) || n.parent.None? then [n] else [n] + Walk(cache, n.parent.value)
  }

  function Found(cache: Cache, n: Node): Option<string> {
    if HasText(Known(cache, n)) then Known(cache, n)
    else if n.parent.Some? then Found(cache, n.parent.value)
    else None
  }

  function Noted(cache: Cache, nodes: seq<Node>, source: string): Cache {
    map n | n in cache.Keys + (set i | 0 <= i < |nodes| :: nodes[i]) :: if n in nodes then source else cache[n]
  }

  /** The cache once a node was asked about. */
  function Cached(cache: Cache, node: Option<Node>): Cache {
    if node.None? || Found(cache, node.value).None? then cache
    else Noted(cache, Walk(cache, node.value), Found(cache, node.value).value)
  }

  function Answer(cache: Cache, node: Option<Node>): string {
    if node.None? then UNATTRIBUTED
    else Found(cache, node.value).OrElse(NearestFallback(node.value)).GetOr(UNATTRIBUTED)
  }

  /** Every entry is the nearest location of its node. */
  predicate Nearest(cache: Cache) {
    forall n :: n in cache ==> NearestLocation(n) == Some(cache[n])
  }

  lemma {:induction false} FoundIsNearest(cache: Cache, n: Node)
    requires Nearest(cache)
    ensures Found(cache, n) == NearestLocation(n)
    ensures forall i :: 0 <= i < |Walk(cache, n)| ==> NearestLocation(Walk(cache, n)[i]) == NearestLocation(n)
  {
    if !HasText(Known(cache, n)) && n.parent.Some? {
      FoundIsNearest(cache, n.parent.value);
    }
  }

  /** Asking keeps the cache right, and the answer is the one the plain search gives. */
  lemma AskKeeps(cache: Cache, node: Option<Node>)
    requires Nearest(cache)
    ensures Nearest(Cached(cache, node)) && Answer(cache, node) == Source(node)
    ensures forall n :: n in cache ==> n in Cached(cache, node) && Cached(cache, node)[n] == cache[n]
    ensures node.Some? && NearestLocation(node.value).Some? ==> node.value in Cached(cache, node)
  {
    if node.Some? { FoundIsNearest(cache, node.value); }
  }

  // ---------------------------------------------------------------- runs

  datatype Call = Ask(node: Option<Node>) | Reset

  function AfterCalls(calls: seq<Call>): Cache {
    if calls == [] then map[]
    else
      var before := AfterCalls(calls[..|calls| - 1]);
      match calls[|calls| - 1]
      case Ask(node) => Cached(before, node)
      case Reset => map[]
  }

  lemma {:induction false} CacheStaysRight(calls: seq<Call>)
    ensures Nearest(AfterCalls(calls))
  {
    if calls != [] {
      CacheStaysRight(calls[..|calls| - 1]);
      match calls[|calls| - 1]
      case Ask(node) => AskKeeps(AfterCalls(calls[..|calls| - 1]), node);
      case Reset =>
    }
  }

  /** After any calls whatever, a node gets the answer of the plain search. */
  lemma CachedAnswersAgree(calls: seq<Call>, node: Option<Node>)
    ensures Answer(AfterCalls(calls), node) == Source(node)
  {
    CacheStaysRight(calls);
    AskKeeps(AfterCalls(calls), node);
  }

  // ---------------------------------------------------------------- the module's state

  /** What the loop knows at `cursor`, the visited nodes having no known location. */
  predicate Walking(cache: Cache, node: Option<Node>, visited: seq<Node>, fallback: Option<string>, cursor: Option<Node>) {
    if node.None? then cursor.None? && fallback.None?
    else if cursor.None? then Found(cache, node.value).None? && NearestFallback(node.value) == fallback
    else
      && Walk(cache, node.value) == visited + Walk(cache, cursor.value)
      && Found(cache, node.value) == Found(cache, cursor.value)
      && NearestFallback(node.value) == fallback.OrElse(NearestFallback(cursor.value))
  }

  lemma WalkOn(cache: Cache, node: Option<Node>, visited: seq<Node>, fallback: Option<string>, at: Node)
    requires Walking(cache, node, visited, fallback, Some(at)) && !HasText(Known(cache, at))
    ensures Walking(cache, node, visited + [at], fallback.OrElse(FallbackSource(at)), at.parent)
  {
    if at.parent.Some? {
      var on := Walk(cache, at.parent.value);
      assert Walk(cache, at) == [at] + on;
      assert visited + ([at] + on) == visited + [at] + on;
    }
  }

  lemma NoteLast(cache: Cache, nodes: seq<Node>, last: Node, source: string)
    ensures Noted(cache, nodes, source)[last := source] == Noted(cache, nodes + [last], source)
  {
    var left, right := Noted(cache, nodes, source)[last := source], Noted(cache, nodes + [last], source);
    forall n
      ensures n in nodes + [last] <==> n in nodes || n == last
      ensures n in left <==> n in right
    {
      NotedKeys(cache, nodes, source, n);
      NotedKeys(cache, nodes + [last], source, n);
    }
  }

  lemma NotedKeys(cache: Cache, nodes: seq<Node>, source: string, n: Node)
    ensures n in Noted(cache, nodes, source) <==> n in cache || n in nodes
  {
    if n in nodes {
      var i :| 0 <= i < |nodes| && nodes[i] == n;
      assert nodes[i] in (set i | 0 <= i < |nodes| :: nodes[i]);
    }
  }

  class SourceNames {
    var cache: Cache

    ghost predicate Valid()
      reads this
    {
      Nearest(cache)
    }

    constructor ()
      ensures Valid() && cache == map[]
    {
      cache := map[];
    }

    method Note(nodes: seq<Node>, source: string)
      modifies this
      ensures cache == Noted(old(cache), nodes, source)
    {
      var i := 0;
      while i < |nodes|
        invariant i <= |nodes|
        invariant cache == Noted(old(cache), nodes[..i], source)
      {
        assert nodes[..i + 1] == nodes[..i] + [nodes[i]];
        cache := cache[nodes[i] := source];
        i := i + 1;
      }
      assert nodes[..i] == nodes;
    }

    method SourceOf(node: Option<Node>) returns (source: string)
      requires Valid()
      modifies this
      ensures Valid() && source == Source(node)
      ensures cache == Cached(old(cache), node)
    {
      AskKeeps(cache, node);
      var visited: seq<Node> := [];
      var fallback: Option<string> := None;
      var cursor := node;
      while cursor.Some?
        invariant cache == old(cache) && Walking(cache, node, visited, fallback, cursor)
        decreases cursor
      {
        var at := cursor.value;
        var location := Known(cache, at);
        if HasText(location) {
          Note(visited, location.value);
          cache := cache[at := location.value];
          NoteLast(old(cache), visited, at, location.value);
          return location.value;
        }
        WalkOn(cache, node, visited, fallback, at);
        visited := visited + [at];
        fallback := fallback.OrElse(FallbackSource(at));
        cursor := at.parent;
      }
      return fallback.GetOr(UNATTRIBUTED);
    }

    /** `node` stands for an event target; what is no element is described as the window. */
    method DescribeTarget(node: Option<Node>) returns (text: string)
      requires Valid()
      modifies this
      ensures Valid()
      ensures text == if node.None? || node.value.element.None? then "(window)"
                      else Lower(node.value.element.value.tag) + " " + Source(node)
    {
      if node.None? || node.value.element.None? { return "(window)"; }
      var source := SourceOf(node);
      return Lower(node.value.element.value.tag) + " " + source;
    }

    /** The first added or removed node that has a source names the change, else its target does. */
    method SubtreeSource(added: Option<Node>, removed: Option<Node>, target: Node) returns (source: string)
      requires Valid()
      modifies this
      ensures Valid()
      ensures source == if Source(added) != UNATTRIBUTED then Source(added)
                        else if Source(removed) != UNATTRIBUTED then Source(removed)
                        else Source(Some(target))
    {
      source := UNATTRIBUTED;
      if added.Some? { source := SourceOf(added); }
      if source != UNATTRIBUTED { return; }
      if removed.Some? { source := SourceOf(removed); }
      if source != UNATTRIBUTED { return; }
      source := SourceOf(Some(target));
    }

    method ResetSourceCache()
      modifies this
      ensures Valid() && cache == map[]
    {
      cache := map[];
    }
  }
}
