/** Frame times kept in buckets of a tenth of a millisecond: src/lib/interaction-frames.ts. */
module InteractionFrames {

  type Buckets = map<int, nat>

  /** Math.round(delta * 10). */
  function Bucket(delta: real): int { (delta * 10.0 + 0.5).Floor }

  function Ms(bucket: int): real { bucket as real / 10.0 }

  /** A bucket stands for the frame times within half a tenth of a millisecond of it, a time half-way for the later one. */
  lemma BucketIsNearest(delta: real, bucket: int)
    ensures Bucket(delta) == bucket <==> Ms(bucket) - 0.05 <= delta < Ms(bucket) + 0.05
  {
    var x := delta * 10.0 + 0.5;
    assert x.Floor == bucket <==> bucket as real <= x < bucket as real + 1.0;
  }

  // ---------------------------------------------------------------- the plain form: all rounded frames, sorted

  predicate Ascending(s: seq<int>) {
    forall i, j :: 0 <= i < j < |s| ==> s[i] <= s[j]
  }

  predicate StrictlyAscending(s: seq<int>) {
    forall i, j :: 0 <= i < j < |s| ==> s[i] < s[j]
  }

  function Insert(x: int, s: seq<int>): seq<int> {
    if s == [] || x <= s[0] then [x] + s else [s[0]] + Insert(x, s[1..])
  }

  lemma {:induction false} InsertAdds(x: int, s: seq<int>)
    ensures multiset(Insert(x, s)) == multiset(s) + multiset{x}
    ensures forall y :: y in Insert(x, s) <==> y == x || y in s
  {
    if s != [] && x > s[0] {
      InsertAdds(x, s[1..]);
      assert s == [s[0]] + s[1..];
    }
  }

  /** Whether every element comes after x, or at least not before it. */
  predicate Above(x: int, s: seq<int>, strictly: bool) {
    forall i :: 0 <= i < |s| ==> if strictly then x < s[i] else x <= s[i]
  }

  lemma ConsAscends(x: int, s: seq<int>)
    ensures Ascending(s) && Above(x, s, false) ==> Ascending([x] + s)
    ensures StrictlyAscending(s) && Above(x, s, true) ==> StrictlyAscending([x] + s)
  {
  }

  lemma InsertAbove(first: int, x: int, s: seq<int>, strictly: bool)
    requires Above(first, s, strictly) && if strictly then first < x else first <= x
    ensures Above(first, Insert(x, s), strictly)
  {
    InsertAdds(x, s);
    var r := Insert(x, s);
    forall i | 0 <= i < |r|
      ensures if strictly then first < r[i] else first <= r[i]
    {
      assert r[i] in r;
    }
  }

  lemma {:induction false} InsertAscends(x: int, s: seq<int>)
    requires Ascending(s)
    ensures Ascending(Insert(x, s))
  {
    if s == [] || x <= s[0] {
      ConsAscends(x, s);
    } else {
      InsertAscends(x, s[1..]);
      InsertAbove(s[0], x, s[1..], false);
      ConsAscends(s[0], Insert(x, s[1..]));
    }
  }

  lemma {:induction false} InsertNew(x: int, s: seq<int>)
    requires StrictlyAscending(s) && x !in s
    ensures StrictlyAscending(Insert(x, s))
  {
    if s == [] || x <= s[0] {
      ConsAscends(x, s);
    } else {
      InsertNew(x, s[1..]);
      InsertAbove(s[0], x, s[1..], true);
      ConsAscends(s[0], Insert(x, s[1..]));
    }
  }

  function Sorted(s: seq<int>): seq<int> {
    if s == [] then [] else Insert(s[|s| - 1], Sorted(s[..|s| - 1]))
  }

  lemma {:induction false} SortedSorts(s: seq<int>)
    ensures Ascending(Sorted(s)) && multiset(Sorted(s)) == multiset(s) && |Sorted(s)| == |s|
  {
    if s != [] {
      var init := s[..|s| - 1];
      SortedSorts(init);
      InsertAscends(s[|s| - 1], Sorted(init));
      InsertAdds(s[|s| - 1], Sorted(init));
      assert s == init + [s[|s| - 1]];
    }
    assert |multiset(Sorted(s))| == |multiset(s)|;
  }

  function Rounded(deltas: seq<real>): seq<int> {
    seq(|deltas|, i requires 0 <= i < |deltas| => Bucket(deltas[i]))
  }

  /** The share of the frames that must be passed. */
  function Share(total: nat, fraction: real): real { total as real * fraction }

  lemma ShareInRange(total: nat, fraction: real)
    ensures fraction >= 1.0 ==> Share(total, fraction) >= total as real
    ensures fraction < 0.0 && total > 0 ==> Share(total, fraction) < 0.0
    ensures 0.0 <= fraction < 1.0 && total > 0 ==> 0.0 <= Share(total, fraction) < total as real
  {
  }

  /** The percentile of an ascending list of bucket numbers. */
  function Ranked(all: seq<int>, fraction: real): real {
    if all == [] || fraction >= 1.0 then 0.0
    else if fraction < 0.0 then Ms(all[0])
    else
      ShareInRange(|all|, fraction);
      Ms(all[Share(|all|, fraction).Floor])
  }

  /** The percentile of a list of frame times. */
  function Percentile(deltas: seq<real>, fraction: real): real {
    Ranked(Sorted(Rounded(deltas)), fraction)
  }

  lemma {:induction false} SortedIsUnique(a: seq<int>, b: seq<int>)
    requires Ascending(a) && Ascending(b) && multiset(a) == multiset(b)
    ensures a == b
  {
    assert |a| == |multiset(a)| && |b| == |multiset(b)|;
    if a != [] {
      FirstIsLeast(a, b);
      FirstIsLeast(b, a);
      assert a == [a[0]] + a[1..] && b == [b[0]] + b[1..];
      assert multiset(a[1..]) == multiset(a) - multiset{a[0]};
      assert multiset(b[1..]) == multiset(b) - multiset{b[0]};
      SortedIsUnique(a[1..], b[1..]);
    }
  }

  lemma FirstIsLeast(a: seq<int>, b: seq<int>)
    requires a != [] && b != [] && Ascending(a) && multiset(a) == multiset(b)
    ensures a[0] <= b[0]
  {
    assert b[0] in multiset(a);
  }

  // ---------------------------------------------------------------- the buckets as runs

  function Run(bucket: int, count: nat): (r: seq<int>)
    ensures |r| == count && forall i :: 0 <= i < count ==> r[i] == bucket
    ensures multiset(r) == multiset{}[bucket := count]
  {
    if count == 0 then [] else [bucket] + Run(bucket, count - 1)
  }

  /** Every bucket's value as often as it was counted. */
  function Expand(keys: seq<int>, buckets: Buckets): seq<int>
    requires forall i :: 0 <= i < |keys| ==> keys[i] in buckets
  {
    if keys == [] then []
    else Expand(keys[..|keys| - 1], buckets) + Run(keys[|keys| - 1], buckets[keys[|keys| - 1]])
  }

  lemma {:induction false} ExpandAscends(keys: seq<int>, buckets: Buckets)
    requires StrictlyAscending(keys) && forall i :: 0 <= i < |keys| ==> keys[i] in buckets
    ensures Ascending(Expand(keys, buckets))
    ensures forall i :: 0 <= i < |Expand(keys, buckets)| ==> Expand(keys, buckets)[i] in keys
  {
    if keys != [] {
      var init := keys[..|keys| - 1];
      ExpandAscends(init, buckets);
    }
  }

  lemma {:induction false} ExpandCounts(keys: seq<int>, buckets: Buckets, b: int)
    requires StrictlyAscending(keys) && forall i :: 0 <= i < |keys| ==> keys[i] in buckets
    ensures multiset(Expand(keys, buckets))[b] == if b in keys then buckets[b] else 0
  {
    if keys != [] {
      ExpandCounts(keys[..|keys| - 1], buckets, b);
      assert keys == keys[..|keys| - 1] + [keys[|keys| - 1]];
    }
  }

  lemma {:induction false} ExpandPrefix(keys: seq<int>, buckets: Buckets, n: nat) returns (tail: seq<int>)
    requires n < |keys| && forall i :: 0 <= i < |keys| ==> keys[i] in buckets
    ensures Expand(keys, buckets) == Expand(keys[..n], buckets) + Run(keys[n], buckets[keys[n]]) + tail
    decreases |keys|
  {
    var init, last := keys[..|keys| - 1], keys[|keys| - 1];
    var run := Run(last, buckets[last]);
    if n < |init| {
      var less := ExpandPrefix(init, buckets, n);
      assert init[..n] == keys[..n];
      tail := less + run;
      Append(Expand(keys[..n], buckets) + Run(keys[n], buckets[keys[n]]), less, run);
    } else {
      tail := [];
      assert init == keys[..n];
      Append(Expand(init, buckets) + run, [], []);
    }
  }

  lemma Append(a: seq<int>, b: seq<int>, c: seq<int>)
    ensures a + b + c == a + (b + c)
    ensures a + [] == a
  {
  }

  lemma Middle(a: seq<int>, b: seq<int>, c: seq<int>, k: nat)
    requires |a| <= k < |a| + |b|
    ensures (a + b + c)[k] == b[k - |a|]
  {
  }

  // ---------------------------------------------------------------- the histogram

  /** The buckets count exactly the rounded frames. */
  ghost predicate Counts(buckets: Buckets, frames: seq<int>) {
    && (forall b :: b in buckets ==> buckets[b] > 0)
    && (forall b :: multiset(frames)[b] == if b in buckets then buckets[b] else 0)
  }

  lemma RunsHold(keys: seq<int>, buckets: Buckets, frames: seq<int>)
    requires StrictlyAscending(keys) && (forall b :: b in keys <==> b in buckets) && Counts(buckets, frames)
    requires forall i :: 0 <= i < |keys| ==> keys[i] in buckets
    ensures multiset(Expand(keys, buckets)) == multiset(frames)
  {
    forall b
      ensures multiset(Expand(keys, buckets))[b] == multiset(frames)[b]
    {
      ExpandCounts(keys, buckets, b);
    }
  }

  lemma RunsAreSorted(keys: seq<int>, buckets: Buckets, frames: seq<int>)
    requires StrictlyAscending(keys) && (forall b :: b in keys <==> b in buckets) && Counts(buckets, frames)
    requires forall i :: 0 <= i < |keys| ==> keys[i] in buckets
    ensures Expand(keys, buckets) == Sorted(frames)
  {
    ExpandAscends(keys, buckets);
    RunsHold(keys, buckets, frames);
    SortedSorts(frames);
    SortedIsUnique(Expand(keys, buckets), Sorted(frames));
  }

  /** The keys of a map in the order they were added. */
  ghost predicate KeyOrder(order: seq<int>, buckets: Buckets) {
    && (forall i, j :: 0 <= i < j < |order| ==> order[i] != order[j])
    && (forall b :: b in order <==> b in buckets)
  }

  lemma {:induction false} DistinctSorted(order: seq<int>)
    requires forall i, j :: 0 <= i < j < |order| ==> order[i] != order[j]
    ensures StrictlyAscending(Sorted(order))
    ensures forall b :: b in Sorted(order) <==> b in order
  {
    if order != [] {
      var init, last := order[..|order| - 1], order[|order| - 1];
      DistinctSorted(init);
      SortedSorts(init);
      assert order == init + [last] && last !in init;
      InsertNew(last, Sorted(init));
      InsertAdds(last, Sorted(init));
    }
  }

  predicate Entry(entry: (real, nat), key: int, buckets: Buckets) {
    key in buckets && entry == (Ms(key), buckets[key])
  }

  /** Entries in key order are ascending and are those of the map. */
  lemma EntriesAre(entries: seq<(real, nat)>, keys: seq<int>, buckets: Buckets)
    requires StrictlyAscending(keys) && forall b :: b in keys <==> b in buckets
    requires |entries| == |keys| && forall i :: 0 <= i < |keys| ==> Entry(entries[i], keys[i], buckets)
    ensures forall i, j :: 0 <= i < j < |entries| ==> entries[i].0 < entries[j].0
    ensures forall entry :: entry in entries <==> exists b :: Entry(entry, b, buckets)
  {
    forall entry, b | Entry(entry, b, buckets)
      ensures entry in entries
    {
      var i :| 0 <= i < |keys| && keys[i] == b;
      assert entries[i] == entry;
    }
  }

  function SumOf(keys: seq<int>, buckets: Buckets): nat
    requires forall i :: 0 <= i < |keys| ==> keys[i] in buckets
  {
    if keys == [] then 0 else SumOf(keys[..|keys| - 1], buckets) + buckets[keys[|keys| - 1]]
  }

  lemma {:induction false} ExpandLength(keys: seq<int>, buckets: Buckets)
    requires forall i :: 0 <= i < |keys| ==> keys[i] in buckets
    ensures |Expand(keys, buckets)| == SumOf(keys, buckets)
  {
    if keys != [] { ExpandLength(keys[..|keys| - 1], buckets); }
  }

  lemma SumStep(keys: seq<int>, buckets: Buckets, n: nat)
    requires n < |keys| && forall i :: 0 <= i < |keys| ==> keys[i] in buckets
    ensures SumOf(keys[..n + 1], buckets) == SumOf(keys[..n], buckets) + buckets[keys[n]] <= SumOf(keys, buckets)
  {
    assert keys[..n + 1][..n] == keys[..n];
    var tail := ExpandPrefix(keys, buckets, n);
    ExpandLength(keys[..n], buckets);
    ExpandLength(keys, buckets);
  }

  /** A run's places in the sorted list. */
  lemma RunPlaces(keys: seq<int>, buckets: Buckets, n: nat, rank: nat)
    requires n < |keys| && forall i :: 0 <= i < |keys| ==> keys[i] in buckets
    requires SumOf(keys[..n], buckets) <= rank < SumOf(keys[..n], buckets) + buckets[keys[n]]
    ensures rank < |Expand(keys, buckets)| && Expand(keys, buckets)[rank] == keys[n]
  {
    var tail := ExpandPrefix(keys, buckets, n);
    ExpandLength(keys[..n], buckets);
    Middle(Expand(keys[..n], buckets), Run(keys[n], buckets[keys[n]]), tail, rank);
  }

  lemma RankIsHere(total: nat, before: nat, count: nat, fraction: real)
    requires 0 < count && before + count <= total
    requires before == 0 || before as real <= Share(total, fraction)
    requires Share(total, fraction) < (before + count) as real
    ensures fraction < 1.0
    ensures fraction < 0.0 ==> before == 0
    ensures 0.0 <= fraction ==> before <= Share(total, fraction).Floor < before + count
  {
    ShareInRange(total, fraction);
  }

  /** The run that carries the sum past the share holds the element at that rank. */
  lemma PercentileIsHere(keys: seq<int>, buckets: Buckets, n: nat, fraction: real)
    requires n < |keys| && (forall i :: 0 <= i < |keys| ==> keys[i] in buckets) && buckets[keys[n]] > 0
    requires var total, before := SumOf(keys, buckets), SumOf(keys[..n], buckets);
             && before + buckets[keys[n]] <= total
             && (before == 0 || before as real <= Share(total, fraction))
             && Share(total, fraction) < (before + buckets[keys[n]]) as real
    ensures Ranked(Expand(keys, buckets), fraction) == Ms(keys[n])
  {
    var total, before := SumOf(keys, buckets), SumOf(keys[..n], buckets);
    ExpandLength(keys, buckets);
    RankIsHere(total, before, buckets[keys[n]], fraction);
    RunPlaces(keys, buckets, n, if fraction < 0.0 then 0 else Share(total, fraction).Floor);
  }

  /** `order` lists the map's keys as they were added; `deltas` is the history, for the proofs only. */
  class FrameHistogram {
    var buckets: Buckets
    var order: seq<int>
    var total: nat
    ghost var deltas: seq<real>

    ghost predicate Valid()
      reads this
    {
      Counts(buckets, Rounded(deltas)) && total == |deltas| && KeyOrder(order, buckets)
    }

    constructor ()
      ensures Valid() && deltas == []
    {
      buckets, order, total, deltas := map[], [], 0, [];
    }

    method AddFrame(deltaMs: real)
      requires Valid()
      modifies this
      ensures Valid() && deltas == old(deltas) + [deltaMs]
      ensures total == old(total) + 1
    {
      var bucket := Bucket(deltaMs);
      if bucket !in buckets { order := order + [bucket]; }
      buckets := buckets[bucket := (if bucket in buckets then buckets[bucket] else 0) + 1];
      total := total + 1;
      deltas := deltas + [deltaMs];
      assert Rounded(deltas) == Rounded(old(deltas)) + [bucket];
    }

    /** Delta in milliseconds and how many frames had it, shortest first. */
    method FrameDeltas() returns (entries: seq<(real, nat)>, ghost keys: seq<int>)
      requires Valid()
      ensures forall i, j :: 0 <= i < j < |entries| ==> entries[i].0 < entries[j].0
      ensures forall entry :: entry in entries <==> exists b :: Entry(entry, b, buckets)
      ensures StrictlyAscending(keys) && forall b :: b in keys <==> b in buckets
      ensures |entries| == |keys| && forall i :: 0 <= i < |keys| ==> Entry(entries[i], keys[i], buckets)
    {
      DistinctSorted(order);
      var sorted := Sorted(order);
      keys := sorted;
      entries := [];
      var i := 0;
      while i < |sorted|
        invariant i == |entries| <= |sorted|
        invariant forall j :: 0 <= j < i ==> Entry(entries[j], keys[j], buckets)
      {
        assert sorted[i] in sorted;
        entries := entries + [(Ms(sorted[i]), buckets[sorted[i]])];
        i := i + 1;
      }
      EntriesAre(entries, keys, buckets);
    }

    /** The counts add up to all the frames, listed shortest first. */
    lemma CountsAddUp(keys: seq<int>)
      requires Valid() && StrictlyAscending(keys) && forall b :: b in keys <==> b in buckets
      requires forall i :: 0 <= i < |keys| ==> keys[i] in buckets
      ensures SumOf(keys, buckets) == total == |Expand(keys, buckets)|
      ensures Expand(keys, buckets) == Sorted(Rounded(deltas))
    {
      RunsAreSorted(keys, buckets, Rounded(deltas));
      SortedSorts(Rounded(deltas));
      ExpandLength(keys, buckets);
    }

    method PercentileMs(fraction: real) returns (ms: real)
      requires Valid()
      ensures ms == Percentile(deltas, fraction)
    {
      var entries, keys := FrameDeltas();
      assert forall j :: 0 <= j < |keys| ==> keys[j] in buckets;
      CountsAddUp(keys);
      ms := Scan(entries, total, fraction, keys, buckets);
    }
  }

  /** The loop of percentileMs. */
  method Scan(entries: seq<(real, nat)>, total: nat, fraction: real, ghost keys: seq<int>, ghost buckets: Buckets)
    returns (ms: real)
    requires |entries| == |keys| && forall i :: 0 <= i < |keys| ==> Entry(entries[i], keys[i], buckets)
    requires forall i :: 0 <= i < |keys| ==> keys[i] in buckets
    requires forall b :: b in buckets ==> buckets[b] > 0
    requires SumOf(keys, buckets) == total
    ensures ms == Ranked(Expand(keys, buckets), fraction)
  {
    ExpandLength(keys, buckets);
    var seen, i := 0, 0;
    while i < |entries|
      invariant i <= |entries| && seen == SumOf(keys[..i], buckets)
      invariant i == 0 || seen as real <= Share(total, fraction)
    {
      SumStep(keys, buckets, i);
      assert Entry(entries[i], keys[i], buckets);
      seen := seen + entries[i].1;
      if seen as real > Share(total, fraction) {
        PercentileIsHere(keys, buckets, i, fraction);
        return entries[i].0;
      }
      i := i + 1;
    }
    assert keys[..i] == keys;
    if i > 0 { NothingPasses(Expand(keys, buckets), fraction); }
    return 0.0;
  }

  /** No element is past a share that all of them do not exceed. */
  lemma NothingPasses(all: seq<int>, fraction: real)
    requires |all| as real <= Share(|all|, fraction)
    ensures Ranked(all, fraction) == 0.0
  {
    ShareInRange(|all|, fraction);
  }
}
