/** The usage breakdown as a flat list: src/lib/usage-metrics.ts. */
module UsageMetrics {

  /** A breakdown row; the figures it shows are not looked at here. */
  datatype Item = Item(id: string, children: seq<Item>)

  datatype Flat = Flat(item: Item, depth: nat)

  // ---------------------------------------------------------------- the plain form

  /** Each row followed by its children's rows, one level deeper. */
  function Preorder(items: seq<Item>, depth: nat): (rows: seq<Flat>)
    decreases items
  {
    if items == [] then [] else [Flat(items[0], depth)] + Preorder(items[0].children, depth + 1) + Preorder(items[1..], depth)
  }

  // ---------------------------------------------------------------- the stack

  /** What a stack of pending rows still has to yield: its top first. */
  function Rest(pending: seq<Flat>): seq<Flat> {
    if pending == [] then []
    else
      var top := pending[|pending| - 1];
      [top] + Preorder(top.item.children, top.depth + 1) + Rest(pending[..|pending| - 1])
  }

  function Size(items: seq<Item>): nat
    decreases items
  {
    if items == [] then 0 else 1 + Size(items[0].children) + Size(items[1..])
  }

  function StackSize(pending: seq<Flat>): nat {
    if pending == [] then 0
    else 1 + Size(pending[|pending| - 1].item.children) + StackSize(pending[..|pending| - 1])
  }

  /** Pushing the rows from the last to the first leaves them to be yielded in order. */
  method PushRows(pending: seq<Flat>, items: seq<Item>, depth: nat) returns (stack: seq<Flat>)
    ensures Rest(stack) == Preorder(items, depth) + Rest(pending)
    ensures StackSize(stack) == Size(items) + StackSize(pending)
  {
    stack := pending;
    var index := |items|;
    assert items[index..] == [];
    while index > 0
      invariant index <= |items|
      invariant Rest(stack) == Preorder(items[index..], depth) + Rest(pending)
      invariant StackSize(stack) == Size(items[index..]) + StackSize(pending)
    {
      index := index - 1;
      var row := Flat(items[index], depth);
      PushOne(stack, row, items[index..], pending);
      assert items[index..][1..] == items[index + 1..];
      stack := stack + [row];
    }
    assert items[0..] == items;
  }

  lemma PushOne(stack: seq<Flat>, row: Flat, items: seq<Item>, pending: seq<Flat>)
    requires items != [] && items[0] == row.item
    requires Rest(stack) == Preorder(items[1..], row.depth) + Rest(pending)
    requires StackSize(stack) == Size(items[1..]) + StackSize(pending)
    ensures Rest(stack + [row]) == Preorder(items, row.depth) + Rest(pending)
    ensures StackSize(stack + [row]) == Size(items) + StackSize(pending)
  {
    var below, rest := Preorder(row.item.children, row.depth + 1), Preorder(items[1..], row.depth);
    RestOfPush(stack, row);
    PreorderHead(items, row.depth);
    Group([row] + below, rest, Rest(pending));
  }

  lemma RestOfPush(stack: seq<Flat>, row: Flat)
    ensures Rest(stack + [row]) == [row] + Preorder(row.item.children, row.depth + 1) + Rest(stack)
    ensures StackSize(stack + [row]) == 1 + Size(row.item.children) + StackSize(stack)
  {
    assert (stack + [row])[..|stack|] == stack;
  }

  lemma Regroup(done: seq<Flat>, row: Flat, below: seq<Flat>, others: seq<Flat>)
    ensures done + ([row] + below + others) == done + [row] + (below + others)
  {
  }

  method Flatten(items: seq<Item>, depth: nat) returns (flattened: seq<Flat>)
    ensures flattened == Preorder(items, depth)
  {
    flattened := [];
    var pending := PushRows([], items, depth);
    while |pending| > 0
      invariant flattened + Rest(pending) == Preorder(items, depth)
      decreases StackSize(pending)
    {
      ghost var done, were := flattened, pending;
      var current := pending[|pending| - 1];
      pending := pending[..|pending| - 1];
      flattened := flattened + [current];
      ghost var others := Rest(pending);
      pending := PushRows(pending, current.item.children, current.depth + 1);
      Regroup(done, current, Preorder(current.item.children, current.depth + 1), others);
      assert Rest(were) == [current] + Preorder(current.item.children, current.depth + 1) + others;
    }
    assert Rest(pending) == [];
  }

  // ---------------------------------------------------------------- where each row ends up

  /** A path names a row: its place among the top rows, then among the children below. */
  predicate IsPath(items: seq<Item>, path: seq<nat>)
    decreases |path|
  {
    path != [] && path[0] < |items| && (|path| > 1 ==> IsPath(items[path[0]].children, path[1..]))
  }

  function RowAt(items: seq<Item>, path: seq<nat>): Item
    requires IsPath(items, path)
    decreases |path|
  {
    if |path| == 1 then items[path[0]] else RowAt(items[path[0]].children, path[1..])
  }

  /** How many rows come before it: the trees before its own, its ancestors, and what precedes it below them. */
  function Rank(items: seq<Item>, path: seq<nat>): nat
    requires IsPath(items, path)
    decreases |path|
  {
    Size(items[..path[0]]) + if |path| == 1 then 0 else 1 + Rank(items[path[0]].children, path[1..])
  }

  lemma {:induction false} PreorderSize(items: seq<Item>, depth: nat)
    ensures |Preorder(items, depth)| == Size(items)
    decreases items
  {
    if items != [] {
      PreorderSize(items[0].children, depth + 1);
      PreorderSize(items[1..], depth);
    }
  }

  lemma {:induction false} PreorderConcat(a: seq<Item>, b: seq<Item>, depth: nat)
    ensures Preorder(a + b, depth) == Preorder(a, depth) + Preorder(b, depth)
    decreases |a|
  {
    if a == [] {
      assert a + b == b;
    } else {
      var rest := a[1..];
      PreorderConcat(rest, b, depth);
      PreorderHead(a, depth);
      assert (a + b)[0] == a[0] && (a + b)[1..] == rest + b;
      PreorderHead(a + b, depth);
      Group([Flat(a[0], depth)] + Preorder(a[0].children, depth + 1), Preorder(rest, depth), Preorder(b, depth));
    }
  }

  lemma Group(a: seq<Flat>, b: seq<Flat>, c: seq<Flat>)
    ensures a + (b + c) == a + b + c
  {
  }

  /** Row n comes after the trees before its own and is followed by the rows below it. */
  lemma RowFirst(front: seq<Item>, tail: seq<Item>, item: Item, depth: nat, k: nat)
    requires tail != [] && tail[0] == item && k <= |Preorder(item.children, depth + 1)|
    ensures var rows, at := Preorder(front + tail, depth), |Preorder(front, depth)| + k;
            at < |rows| && rows[at] == if k == 0 then Flat(item, depth) else Preorder(item.children, depth + 1)[k - 1]
  {
    PreorderConcat(front, tail, depth);
    PreorderHead(tail, depth);
    RowIndex(Preorder(front, depth), Flat(item, depth), Preorder(item.children, depth + 1), Preorder(tail[1..], depth), k);
  }

  /** Every row of the forest stands at its rank, with its depth below the starting depth. */
  lemma {:induction false} RowStandsAtItsRank(items: seq<Item>, path: seq<nat>, depth: nat)
    requires IsPath(items, path)
    ensures Rank(items, path) < |Preorder(items, depth)| == Size(items)
    ensures Preorder(items, depth)[Rank(items, path)] == Flat(RowAt(items, path), depth + |path| - 1)
    decreases |path|
  {
    var n := path[0];
    var children := items[n].children;
    if |path| > 1 { RowStandsAtItsRank(children, path[1..], depth + 1); }
    PreorderSize(items, depth);
    PreorderSize(items[..n], depth);
    RowInPlace(items, n, depth, if |path| == 1 then 0 else 1 + Rank(children, path[1..]));
  }

  lemma RowInPlace(items: seq<Item>, n: nat, depth: nat, k: nat)
    requires n < |items| && k <= |Preorder(items[n].children, depth + 1)|
    ensures var rows, at := Preorder(items, depth), |Preorder(items[..n], depth)| + k;
            at < |rows| && rows[at] == if k == 0 then Flat(items[n], depth) else Preorder(items[n].children, depth + 1)[k - 1]
  {
    var front, tail := items[..n], items[n..];
    RowFirst(front, tail, items[n], depth, k);
    assert items == front + tail;
  }

  lemma PreorderHead(items: seq<Item>, depth: nat)
    requires items != []
    ensures Preorder(items, depth)
         == [Flat(items[0], depth)] + Preorder(items[0].children, depth + 1) + Preorder(items[1..], depth)
  {
  }

  lemma RowIndex(before: seq<Flat>, row: Flat, below: seq<Flat>, others: seq<Flat>, k: nat)
    requires k <= |below|
    ensures var all := before + ([row] + below + others);
            |before| + k < |all| && all[|before| + k] == if k == 0 then row else below[k - 1]
  {
  }

  /** And every place of the list is some row's. */
  lemma {:induction false} EveryPlaceIsARow(items: seq<Item>, k: nat) returns (path: seq<nat>)
    requires k < Size(items)
    ensures IsPath(items, path) && Rank(items, path) == k
    decreases items
  {
    var below := Size(items[0].children);
    if k == 0 {
      path := [0];
    } else if k <= below {
      var rest := EveryPlaceIsARow(items[0].children, k - 1);
      path := [0] + rest;
      assert path[1..] == rest;
    } else {
      var rest := EveryPlaceIsARow(items[1..], k - 1 - below);
      path := [rest[0] + 1] + rest[1..];
      assert path[1..] == rest[1..];
      assert items[..path[0]][1..] == items[1..][..rest[0]];
      assert items[path[0]] == items[1..][rest[0]];
    }
  }
}
