/**
 What the order of interruptions and reloads says about a watch scope: whether every interruption was
 followed by a whole-scope reload, and whether one of those succeeded.
 */
module ResourceWatchTrace {
  import opened Wrappers
  import opened ResourceWatch

  // ---------------------------------------------------------------- reloads that began

  /** Every interruption was followed by a whole-scope reload begun with every permitted watch connected. */
  ghost predicate CaughtUp(trace: seq<Mark>) {
    forall i :: 0 <= i < |trace| && trace[i] == Interrupted ==> Overtaken(trace, i)
  }

  ghost predicate Overtaken(trace: seq<Mark>, i: nat) {
    exists j :: i < j < |trace| && trace[j] == Began(None, true)
  }

  lemma TraceGrows(trace: seq<Mark>, m: Mark)
    requires CaughtUp(trace) && m != Interrupted
    ensures CaughtUp(trace + [m])
  {
    forall i | 0 <= i < |trace| + 1 && (trace + [m])[i] == Interrupted ensures Overtaken(trace + [m], i) {
      assert Overtaken(trace, i);
      var j :| i < j < |trace| && trace[j] == Began(None, true);
      assert (trace + [m])[j] == Began(None, true);
    }
  }

  lemma TraceCatchesUp(trace: seq<Mark>)
    ensures CaughtUp(trace + [Began(None, true)])
  {
    var all := trace + [Began(None, true)];
    forall i | 0 <= i < |all| && all[i] == Interrupted ensures Overtaken(all, i) {
      assert all[|trace|] == Began(None, true);
    }
  }

  // ---------------------------------------------------------------- reloads that succeeded

  /** A whole-scope reload begun at j, with every permitted watch connected, has not settled yet. */
  ghost predicate OpenFrom(trace: seq<Mark>, j: nat) {
    j < |trace| && trace[j] == Began(None, true) && forall k :: j < k < |trace| ==> !trace[k].Ended?
  }

  /** That reload settled, with success. */
  ghost predicate SucceededFrom(trace: seq<Mark>, j: nat) {
    exists k: nat :: SucceededAt(trace, j, k)
  }

  ghost predicate SucceededAt(trace: seq<Mark>, j: nat, k: nat) {
    && j < k < |trace| && trace[j] == Began(None, true) && trace[k].Ended? && trace[k].outcome.Loaded?
    && forall m :: j < m < k ==> !trace[m].Ended?
  }

  /** The interruption at i is made good: a whole-scope reload begun after it succeeded. */
  ghost predicate Served(trace: seq<Mark>, i: nat) {
    exists j: nat :: i < j && SucceededFrom(trace, j)
  }

  /** A whole-scope reload begun after the interruption at i is still running. */
  ghost predicate Awaited(trace: seq<Mark>, i: nat) {
    exists j: nat :: i < j && OpenFrom(trace, j)
  }

  ghost predicate AllServed(trace: seq<Mark>) {
    forall i :: 0 <= i < |trace| && trace[i] == Interrupted ==> Served(trace, i)
  }

  /** What a scope still owes: nothing; a whole-scope reload; the success of the one that runs; one that failed and
      whose error it shows; or one that failed and that it no longer knows of. */
  datatype Debt = Clear | Owed | Loading | Shown | Lost

  /** An error with this message is neither shown nor retried. */
  predicate Silent(outcome: Outcome) { outcome.Failed? && outcome.message == "" }

  function DebtAfter(debt: Debt, m: Mark): Debt {
    match m
    case Interrupted => Owed
    case Began(keys, connected) => if keys.None? && connected && debt != Clear then Loading else debt
    case Ended(current, outcome) =>
      (match debt
       case Loading =>
         if outcome.Loaded? then Clear else if current && !Silent(outcome) then Shown else Lost
       case Shown => if current && (outcome.Loaded? || Silent(outcome)) then Lost else Shown
       case _ => debt)
    case KeysChanged => if debt == Shown then Lost else debt
  }

  function DebtOf(trace: seq<Mark>): Debt {
    if trace == [] then Clear else DebtAfter(DebtOf(trace[..|trace| - 1]), trace[|trace| - 1])
  }

  lemma DebtNext(trace: seq<Mark>, m: Mark)
    ensures DebtOf(trace + [m]) == DebtAfter(DebtOf(trace), m)
  {
    assert (trace + [m])[..|trace|] == trace;
  }

  // ---------------------------------------------------------------- what the debt means

  lemma OpenNext(trace: seq<Mark>, m: Mark, j: nat)
    ensures OpenFrom(trace + [m], j)
       <==> (OpenFrom(trace, j) && !m.Ended?) || (j == |trace| && m == Began(None, true))
  {
    var all := trace + [m];
    assert all[|trace|] == m;
    assert forall k :: 0 <= k < |trace| ==> all[k] == trace[k];
  }

  lemma SucceededNext(trace: seq<Mark>, m: Mark, j: nat)
    ensures SucceededFrom(trace + [m], j)
       <==> SucceededFrom(trace, j) || (OpenFrom(trace, j) && m.Ended? && m.outcome.Loaded?)
  {
    var all := trace + [m];
    assert all[|trace|] == m;
    assert forall k :: 0 <= k < |trace| ==> all[k] == trace[k];
    if SucceededFrom(trace, j) {
      var k: nat :| SucceededAt(trace, j, k);
      assert SucceededAt(all, j, k);
    }
    if OpenFrom(trace, j) && m.Ended? && m.outcome.Loaded? { assert SucceededAt(all, j, |trace|); }
    if SucceededFrom(all, j) {
      var k: nat :| SucceededAt(all, j, k);
      if k < |trace| { assert SucceededAt(trace, j, k); }
    }
  }

  lemma ServedNext(trace: seq<Mark>, m: Mark, i: nat)
    ensures Served(trace + [m], i) <==> Served(trace, i) || (Awaited(trace, i) && m.Ended? && m.outcome.Loaded?)
    ensures Awaited(trace + [m], i) <==> (Awaited(trace, i) && !m.Ended?) || (i < |trace| && m == Began(None, true))
  {
    forall j: nat
      ensures SucceededFrom(trace + [m], j)
         <==> SucceededFrom(trace, j) || (OpenFrom(trace, j) && m.Ended? && m.outcome.Loaded?)
      ensures OpenFrom(trace + [m], j)
         <==> (OpenFrom(trace, j) && !m.Ended?) || (j == |trace| && m == Began(None, true))
    {
      SucceededNext(trace, m, j);
      OpenNext(trace, m, j);
    }
    if i < |trace| && m == Began(None, true) { assert OpenFrom(trace + [m], |trace|); }
  }

  /** Some interruption is neither made good nor about to be. */
  ghost predicate Unserved(trace: seq<Mark>) {
    exists i :: 0 <= i < |trace| && trace[i] == Interrupted && !Served(trace, i) && !Awaited(trace, i)
  }

  ghost predicate AllServedOrAwaited(trace: seq<Mark>) {
    forall i :: 0 <= i < |trace| && trace[i] == Interrupted ==> Served(trace, i) || Awaited(trace, i)
  }

  /** No debt means every interruption was made good by a reload that succeeded; while one is loading, its success
      would make good the rest; in every other case some interruption was not made good. */
  lemma {:induction false} DebtMeans(trace: seq<Mark>)
    ensures DebtOf(trace).Clear? <==> AllServed(trace)
    ensures DebtOf(trace).Loading? ==> AllServedOrAwaited(trace)
    ensures DebtOf(trace) in {Owed, Shown, Lost} ==> Unserved(trace)
  {
    if trace != [] {
      var init, m := trace[..|trace| - 1], trace[|trace| - 1];
      DebtMeans(init);
      assert trace == init + [m];
      DebtNext(init, m);
      assert Extends(init, m) by {
        forall i | 0 <= i <= |init|
          ensures Served(init + [m], i) <==> Served(init, i) || (Awaited(init, i) && m.Ended? && m.outcome.Loaded?)
          ensures Awaited(init + [m], i) <==> (Awaited(init, i) && !m.Ended?) || (i < |init| && m == Began(None, true))
        {
          ServedNext(init, m, i);
        }
      }
      ClearNext(init, m);
      LoadingNext(init, m);
      UnservedNext(init, m);
    }
  }

  /** How one more mark changes what is made good and what is about to be. */
  ghost predicate Extends(init: seq<Mark>, m: Mark) {
    forall i :: 0 <= i <= |init| ==>
      && (Served(init + [m], i) <==> Served(init, i) || (Awaited(init, i) && m.Ended? && m.outcome.Loaded?))
      && (Awaited(init + [m], i) <==> (Awaited(init, i) && !m.Ended?) || (i < |init| && m == Began(None, true)))
  }

  lemma MarksOf(init: seq<Mark>, m: Mark)
    ensures forall i :: 0 <= i < |init| ==> (init + [m])[i] == init[i]
    ensures (init + [m])[|init|] == m
  {
  }

  lemma ClearNext(init: seq<Mark>, m: Mark)
    requires DebtOf(init).Clear? <==> AllServed(init)
    requires DebtOf(init).Loading? ==> AllServedOrAwaited(init)
    requires DebtOf(init) in {Owed, Shown, Lost} ==> Unserved(init)
    requires Extends(init, m)
    ensures DebtAfter(DebtOf(init), m).Clear? <==> AllServed(init + [m])
  {
    var all := init + [m];
    MarksOf(init, m);
    if DebtOf(init) in {Owed, Shown, Lost} {
      var i :| 0 <= i < |init| && init[i] == Interrupted && !Served(init, i) && !Awaited(init, i);
      assert all[i] == Interrupted && !Served(all, i);
    } else if m == Interrupted {
      assert !Served(init, |init|) && all[|init|] == Interrupted;
      LastIsUnserved(all);
    } else if DebtOf(init).Loading? && !(m.Ended? && m.outcome.Loaded?) {
      var i :| 0 <= i < |init| && init[i] == Interrupted && !Served(init, i);
      assert all[i] == Interrupted && !Served(all, i);
    }
  }

  /** Nothing can have made good the interruption that came last. */
  lemma LastIsUnserved(trace: seq<Mark>)
    requires trace != []
    ensures !Served(trace, |trace| - 1) && !Awaited(trace, |trace| - 1)
  {
  }

  lemma LoadingNext(init: seq<Mark>, m: Mark)
    requires DebtOf(init).Clear? <==> AllServed(init)
    requires DebtOf(init).Loading? ==> AllServedOrAwaited(init)
    requires Extends(init, m)
    ensures DebtAfter(DebtOf(init), m).Loading? ==> AllServedOrAwaited(init + [m])
  {
    MarksOf(init, m);
  }

  lemma UnservedNext(init: seq<Mark>, m: Mark)
    requires DebtOf(init).Clear? <==> AllServed(init)
    requires DebtOf(init) in {Owed, Shown, Lost} ==> Unserved(init)
    requires Extends(init, m)
    ensures DebtAfter(DebtOf(init), m) in {Owed, Shown, Lost} ==> Unserved(init + [m])
  {
    var all := init + [m];
    MarksOf(init, m);
    if DebtAfter(DebtOf(init), m) in {Owed, Shown, Lost} {
      if m == Interrupted {
        LastIsUnserved(all);
      } else {
        assert !DebtOf(init).Clear? && m != Began(None, true);
        var i :| 0 <= i < |init| && init[i] == Interrupted && !Served(init, i) && (Awaited(init, i) ==> m.Ended? && !m.outcome.Loaded?);
        assert all[i] == Interrupted && !Served(all, i) && !Awaited(all, i);
      }
    }
  }

  // ---------------------------------------------------------------- how a debt is lost

  /** At k the scope loses sight of a failed catch-up: its failure is dropped because the key set changed or its
      message is empty, or its error is cleared by another reload or by a change of the key set. */
  ghost predicate LossAt(trace: seq<Mark>, k: nat) {
    && k < |trace|
    && var m := trace[k];
       match DebtOf(trace[..k])
       case Loading => m.Ended? && m.outcome.Failed? && (!m.current || Silent(m.outcome))
       case Shown => m == KeysChanged || (m.Ended? && m.current && (m.outcome.Loaded? || Silent(m.outcome)))
       case _ => false
  }

  /** No interruption and no whole-scope reload since. */
  ghost predicate QuietSince(trace: seq<Mark>, k: nat) {
    forall m :: k < m < |trace| ==> trace[m] != Interrupted && trace[m] != Began(None, true)
  }

  /** The debt is lost exactly if the scope lost sight of a failed catch-up and neither a further interruption nor
      another whole-scope reload came after. */
  lemma {:induction false} LostMeans(trace: seq<Mark>)
    ensures DebtOf(trace).Lost? <==> exists k: nat :: LossAt(trace, k) && QuietSince(trace, k)
  {
    if trace != [] {
      var init, m := trace[..|trace| - 1], trace[|trace| - 1];
      LostMeans(init);
      assert trace == init + [m];
      forall k: nat | k < |init|
        ensures LossAt(trace, k) <==> LossAt(init, k)
        ensures QuietSince(trace, k) <==> QuietSince(init, k) && m != Interrupted && m != Began(None, true)
      {
        assert trace[..k] == init[..k];
        assert trace[|init|] == m && forall i :: 0 <= i < |init| ==> trace[i] == init[i];
      }
      if DebtOf(init).Lost? && m != Interrupted && m != Began(None, true) {
        var k: nat :| LossAt(init, k) && QuietSince(init, k);
        assert LossAt(trace, k) && QuietSince(trace, k);
      }
      if LossAt(trace, |init|) { assert QuietSince(trace, |init|); }
      assert LossAt(trace, |init|) <==> !DebtOf(init).Lost? && DebtAfter(DebtOf(init), m).Lost?;
    }
  }
}
