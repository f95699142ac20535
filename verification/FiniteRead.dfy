/**
 The cancellation protocol of installFiniteReadLifecycle (src/lib/finite-read-lifecycle.ts) over a
 query cache whose observers come and go.
 */
module FiniteRead {
  import opened Wrappers

  type Hash = string

  /** A query of the cache: its observers and the metadata the lifecycle reads. */
  datatype Query = Query(observers: nat, finiteRead: bool, cancelScope: Option<string>)

  /** A run of cancel(): awaiting the frontend cancellation, awaiting the backend, or over. */
  datatype Stage = Frontend | Backend | Done

  datatype Cancel = Cancel(hash: Hash, scope: string, stage: Stage)

  datatype Alarm = Alarm(hash: Hash, scope: string)

  /** A cancelBackend call: the run of cancel() that made it and the observers at that moment. */
  datatype BackendCall = BackendCall(run: nat, hash: Hash, scope: string, observers: nat)

  datatype State = State(
    installed: bool,
    pending: map<Hash, nat>,
    armed: map<nat, Alarm>,
    timers: nat,
    cache: map<Hash, Query>,
    cancels: seq<Cancel>,
    calls: seq<BackendCall>)

  function Observers(s: State, h: Hash): nat {
    if h in s.cache then s.cache[h].observers else 0
  }

  /** The cache event handler, for an observer removed from the query `h`. */
  function OnObserverRemoved(s: State, h: Hash): State
    requires h in s.cache
  {
    var q := s.cache[h];
    if !s.installed || !q.finiteRead || q.cancelScope.None? || q.observers > 0 then s
    else
      var cleared := if h in s.pending then s.armed - {s.pending[h]} else s.armed;
      s.(pending := s.pending[h := s.timers],
         armed := cleared[s.timers := Alarm(h, q.cancelScope.value)],
         timers := s.timers + 1)
  }

  /** The timer callback. */
  function OnTimer(s: State, t: nat): State
    requires t in s.armed
  {
    var alarm := s.armed[t];
    var s1 := s.(armed := s.armed - {t}, pending := s.pending - {alarm.hash});
    if Observers(s, alarm.hash) == 0 then s1.(cancels := s.cancels + [Cancel(alarm.hash, alarm.scope, Frontend)]) else s1
  }

  /** cancel() once cancelQueries settled. */
  function OnFrontendCancelled(s: State, i: nat): State
    requires i < |s.cancels|
  {
    var c := s.cancels[i];
    if Observers(s, c.hash) != 0 then s.(cancels := s.cancels[i := c.(stage := Done)])
    else s.(cancels := s.cancels[i := c.(stage := Backend)],
            calls := s.calls + [BackendCall(i, c.hash, c.scope, Observers(s, c.hash))])
  }

  /** The returned unsubscribe function. */
  function OnUninstall(s: State): State {
    s.(installed := false, armed := map t | t in s.armed && t !in s.pending.Values :: s.armed[t], pending := map[])
  }

  datatype Event =
    | ObserverAdded(hash: Hash, query: Query)    // `query` is created if the cache has none
    | ObserverRemoved(hash: Hash)
    | QueryRemoved(hash: Hash)
    | TimerFired(timer: nat)
    | FrontendCancelled(run: nat)
    | BackendAnswered(run: nat)
    | Uninstalled

  ghost predicate Possible(s: State, e: Event) {
    match e
    case ObserverRemoved(h) => Observers(s, h) > 0
    case TimerFired(t) => t in s.armed
    case FrontendCancelled(i) => i < |s.cancels| && s.cancels[i].stage == Frontend
    case BackendAnswered(i) => i < |s.cancels| && s.cancels[i].stage == Backend
    case _ => true
  }

  function Step(s: State, e: Event): State
    requires Possible(s, e)
  {
    match e
    case ObserverAdded(h, q) =>
      var base := if h in s.cache then s.cache[h] else q.(observers := 0);
      s.(cache := s.cache[h := base.(observers := base.observers + 1)])
    case ObserverRemoved(h) =>
      OnObserverRemoved(s.(cache := s.cache[h := s.cache[h].(observers := s.cache[h].observers - 1)]), h)
    case QueryRemoved(h) => s.(cache := s.cache - {h})
    case TimerFired(t) => OnTimer(s, t)
    case FrontendCancelled(i) => OnFrontendCancelled(s, i)
    case BackendAnswered(i) => s.(cancels := s.cancels[i := s.cancels[i].(stage := Done)])
    case Uninstalled => OnUninstall(s)
  }

  // ---------------------------------------------------------------- every run

  /** `pending` and the armed timers are the same relation: one timer per query hash. */
  ghost predicate TimersInv(s: State) {
    && (forall h :: h in s.pending ==> s.pending[h] in s.armed && s.armed[s.pending[h]].hash == h)
    && (forall t :: t in s.armed ==> t < s.timers && s.armed[t].hash in s.pending && s.pending[s.armed[t].hash] == t)
    && (!s.installed ==> s.pending == map[])
  }

  /** Every backend cancellation was made once, after its run's frontend cancellation, while the
      query had no observers. */
  ghost predicate CallsInv(s: State) {
    && (forall k :: 0 <= k < |s.calls| ==>
          var call := s.calls[k];
          && call.run < |s.cancels| && s.cancels[call.run].stage != Frontend
          && s.cancels[call.run].hash == call.hash && s.cancels[call.run].scope == call.scope
          && call.observers == 0)
    && (forall k, m :: 0 <= k < m < |s.calls| ==> s.calls[k].run != s.calls[m].run)
    && (forall i :: 0 <= i < |s.cancels| && s.cancels[i].stage == Backend ==> Called(s, i))
  }

  ghost predicate Called(s: State, run: nat) {
    exists k :: 0 <= k < |s.calls| && s.calls[k].run == run
  }

  ghost predicate Inv(s: State) { TimersInv(s) && CallsInv(s) }

  lemma TimersKeep(s: State, e: Event)
    requires TimersInv(s) && Possible(s, e)
    ensures TimersInv(Step(s, e))
  {
  }

  lemma FrontendKeepsCalls(s: State, i: nat)
    requires CallsInv(s) && Possible(s, FrontendCancelled(i))
    ensures CallsInv(OnFrontendCancelled(s, i))
  {
    var r := OnFrontendCancelled(s, i);
    forall j | 0 <= j < |r.cancels| && r.cancels[j].stage == Backend ensures Called(r, j) {
      if j == i {
        assert r.calls[|s.calls|].run == i;
      } else {
        assert Called(s, j);
        var k :| 0 <= k < |s.calls| && s.calls[k].run == j;
        assert r.calls[k].run == j;
      }
    }
  }

  /** Steps that make no call and move no run into its backend stage. */
  lemma SameCallsKeep(s: State, r: State)
    requires CallsInv(s) && r.calls == s.calls && |r.cancels| >= |s.cancels|
    requires forall i :: 0 <= i < |s.cancels| ==>
               r.cancels[i] == s.cancels[i] || (s.cancels[i].stage == Backend && r.cancels[i] == s.cancels[i].(stage := Done))
    requires forall i :: |s.cancels| <= i < |r.cancels| ==> r.cancels[i].stage == Frontend
    ensures CallsInv(r)
  {
    forall i | 0 <= i < |r.cancels| && r.cancels[i].stage == Backend ensures Called(r, i) {
      assert Called(s, i);
    }
  }

  lemma CallsKeep(s: State, e: Event)
    requires CallsInv(s) && Possible(s, e)
    ensures CallsInv(Step(s, e))
  {
    if e.FrontendCancelled? {
      FrontendKeepsCalls(s, e.run);
    } else {
      SameCallsKeep(s, Step(s, e));
    }
  }

  lemma StepInv(s: State, e: Event)
    requires Inv(s) && Possible(s, e)
    ensures Inv(Step(s, e))
  {
    TimersKeep(s, e);
    CallsKeep(s, e);
  }

  const EMPTY := State(true, map[], map[], 0, map[], [], [])

  ghost function After(start: State, events: seq<Event>): (s: State)
    requires Inv(start)
    ensures Inv(s)
    decreases |events|
  {
    if events == [] then start
    else if Possible(start, events[0]) then
      TimersKeep(start, events[0]);
      CallsKeep(start, events[0]);
      After(Step(start, events[0]), events[1..])
    else After(start, events[1..])
  }

  /** In every run the backend is cancelled only for a query without observers, at most once for
      each run of cancel(), and only after that run's frontend cancellation. */
  lemma BackendFollowsFrontend(events: seq<Event>, k: nat)
    requires k < |After(EMPTY, events).calls|
    ensures var s := After(EMPTY, events);
            var call := s.calls[k];
            && call.observers == 0
            && call.run < |s.cancels| && s.cancels[call.run].stage != Frontend
            && s.cancels[call.run].hash == call.hash && s.cancels[call.run].scope == call.scope
            && (forall m :: 0 <= m < |s.calls| && s.calls[m].run == call.run ==> m == k)
  {
    assert CallsInv(After(EMPTY, events));
  }

  /** In every run there is at most one timer for a query hash, and none after uninstall. */
  lemma OneTimerPerQuery(events: seq<Event>, t: nat, u: nat)
    requires var s := After(EMPTY, events); t in s.armed && u in s.armed && s.armed[t].hash == s.armed[u].hash
    ensures t == u && After(EMPTY, events).installed
  {
    assert TimersInv(After(EMPTY, events));
  }

  /** A query that is observed when its timer fires is not cancelled, and neither is one that is
      observed when its frontend cancellation settles. */
  lemma ObservedReadIsKept(s: State, e: Event)
    requires Inv(s) && Possible(s, e)
    requires (e.TimerFired? && Observers(s, s.armed[e.timer].hash) > 0)
             || (e.FrontendCancelled? && Observers(s, s.cancels[e.run].hash) > 0)
    ensures Step(s, e).calls == s.calls
    ensures e.TimerFired? ==> Step(s, e).cancels == s.cancels
    ensures e.FrontendCancelled? ==> Step(s, e).cancels[e.run].stage == Done
  {
  }

  /** The cancellation of `h` is under way since call number `from`: it has a timer, or a run in
      its frontend stage, or the backend was asked. */
  ghost predicate UnderWay(s: State, h: Hash, from: nat) {
    || h in s.pending
    || (exists i :: 0 <= i < |s.cancels| && s.cancels[i].hash == h && s.cancels[i].stage == Frontend)
    || (exists k :: from <= k < |s.calls| && s.calls[k].hash == h)
  }

  ghost predicate Quiet(events: seq<Event>, h: Hash) {
    forall i :: 0 <= i < |events| ==> !events[i].Uninstalled? && !(events[i].ObserverAdded? && events[i].hash == h)
  }

  lemma StepStaysUnderWay(s: State, e: Event, h: Hash, from: nat)
    requires Inv(s) && Possible(s, e) && Observers(s, h) == 0 && UnderWay(s, h, from) && from <= |s.calls|
    requires !e.Uninstalled? && !(e.ObserverAdded? && e.hash == h)
    ensures Observers(Step(s, e), h) == 0 && UnderWay(Step(s, e), h, from)
  {
    var r := Step(s, e);
    if h in s.pending {
      if e.TimerFired? && s.armed[e.timer].hash == h {
        assert r.cancels[|s.cancels|].hash == h && r.cancels[|s.cancels|].stage == Frontend;
      }
    } else if i :| 0 <= i < |s.cancels| && s.cancels[i].hash == h && s.cancels[i].stage == Frontend {
      if e == FrontendCancelled(i) {
        assert r.calls[|s.calls|].hash == h;
      } else {
        assert r.cancels[i] == s.cancels[i];
      }
    } else {
      var k :| from <= k < |s.calls| && s.calls[k].hash == h;
      assert r.calls[k] == s.calls[k];
    }
  }

  lemma {:induction false} StaysUnderWay(s: State, events: seq<Event>, h: Hash, from: nat)
    requires Inv(s) && Observers(s, h) == 0 && UnderWay(s, h, from) && from <= |s.calls| && Quiet(events, h)
    ensures var r := After(s, events); Observers(r, h) == 0 && UnderWay(r, h, from)
    decreases |events|
  {
    if events != [] {
      assert forall i :: 0 <= i < |events| - 1 ==> events[1..][i] == events[i + 1];
      if Possible(s, events[0]) {
        TimersKeep(s, events[0]);
        CallsKeep(s, events[0]);
        StepStaysUnderWay(s, events[0], h, from);
        StaysUnderWay(Step(s, events[0]), events[1..], h, from);
      } else {
        StaysUnderWay(s, events[1..], h, from);
      }
    }
  }

  /** No abandoned read is forgotten: once a cancellable read lost its last observer, then through
      any events short of a new observer or uninstall its timer is armed, or its frontend
      cancellation runs, or the backend was asked to cancel it since. */
  lemma AbandonedReadIsCancelled(s: State, h: Hash, events: seq<Event>)
    requires Inv(s) && s.installed && Observers(s, h) == 1
    requires s.cache[h].finiteRead && s.cache[h].cancelScope.Some? && Quiet(events, h)
    ensures var r := After(s, [ObserverRemoved(h)] + events);
            || h in r.pending
            || (exists i :: 0 <= i < |r.cancels| && r.cancels[i].hash == h && r.cancels[i].stage == Frontend)
            || (exists k :: |s.calls| <= k < |r.calls| && r.calls[k].hash == h)
  {
    var all := [ObserverRemoved(h)] + events;
    assert all[1..] == events;
    var s1 := Step(s, ObserverRemoved(h));
    TimersKeep(s, ObserverRemoved(h));
    CallsKeep(s, ObserverRemoved(h));
    assert h in s1.pending;
    StaysUnderWay(s1, events, h, |s.calls|);
  }

  // ---------------------------------------------------------------- what the backend is asked to cancel

  predicate Cancellable(q: Query, scope: string) { q.finiteRead && q.cancelScope == Some(scope) }

  /** Only these reads are held as cancellable, timed, being cancelled or cancelled. */
  ghost predicate OnlyThese(s: State, scopes: iset<(Hash, string)>) {
    && (forall h, scope :: h in s.cache && Cancellable(s.cache[h], scope) ==> (h, scope) in scopes)
    && (forall t :: t in s.armed ==> (s.armed[t].hash, s.armed[t].scope) in scopes)
    && (forall i :: 0 <= i < |s.cancels| ==> (s.cancels[i].hash, s.cancels[i].scope) in scopes)
    && (forall k :: 0 <= k < |s.calls| ==> (s.calls[k].hash, s.calls[k].scope) in scopes)
  }

  /** The event brings no other cancellable read. */
  ghost predicate BringsOnly(e: Event, scopes: iset<(Hash, string)>) {
    e.ObserverAdded? && e.query.finiteRead && e.query.cancelScope.Some? ==> (e.hash, e.query.cancelScope.value) in scopes
  }

  lemma StepOnlyThese(s: State, e: Event, scopes: iset<(Hash, string)>)
    requires Possible(s, e) && OnlyThese(s, scopes) && BringsOnly(e, scopes)
    ensures OnlyThese(Step(s, e), scopes)
  {
  }

  lemma {:induction false} RunOnlyThese(s: State, events: seq<Event>, scopes: iset<(Hash, string)>)
    requires Inv(s) && OnlyThese(s, scopes) && forall j :: 0 <= j < |events| ==> BringsOnly(events[j], scopes)
    ensures OnlyThese(After(s, events), scopes)
    decreases |events|
  {
    if events != [] {
      assert forall j :: 0 <= j < |events| - 1 ==> events[1..][j] == events[j + 1];
      if Possible(s, events[0]) {
        TimersKeep(s, events[0]);
        CallsKeep(s, events[0]);
        StepOnlyThese(s, events[0], scopes);
        RunOnlyThese(Step(s, events[0]), events[1..], scopes);
      } else {
        RunOnlyThese(s, events[1..], scopes);
      }
    }
  }

  ghost predicate Brought(events: seq<Event>, h: Hash, scope: string) {
    exists j :: 0 <= j < |events| && events[j].ObserverAdded? && events[j].hash == h && Cancellable(events[j].query, scope)
  }

  /** In every run the backend is asked to cancel only scopes of finite reads of that very query. */
  lemma OnlyReadScopesAreCancelled(events: seq<Event>, k: nat)
    requires k < |After(EMPTY, events).calls|
    ensures var call := After(EMPTY, events).calls[k];
            exists j :: 0 <= j < |events| && events[j].ObserverAdded? && events[j].hash == call.hash
                        && events[j].query.finiteRead && events[j].query.cancelScope == Some(call.scope)
  {
    var brought := iset h, scope | Brought(events, h, scope) :: (h, scope);
    forall j | 0 <= j < |events| ensures BringsOnly(events[j], brought) {
      var e := events[j];
      if e.ObserverAdded? && e.query.finiteRead && e.query.cancelScope.Some? {
        assert Brought(events, e.hash, e.query.cancelScope.value);
      }
    }
    RunOnlyThese(EMPTY, events, brought);
  }

  // ---------------------------------------------------------------- the installed lifecycle

  class Lifecycle {
    var installed: bool
    var pending: map<Hash, nat>
    var armed: map<nat, Alarm>
    var timers: nat
    var cache: map<Hash, Query>
    var cancels: seq<Cancel>
    var calls: seq<BackendCall>

    ghost function Snapshot(): State
      reads this
    {
      State(installed, pending, armed, timers, cache, cancels, calls)
    }

    /** One timer per query hash, and every backend cancel follows its frontend cancel. */
    ghost predicate Valid()
      reads this
    {
      Inv(Snapshot())
    }

    constructor ()
      ensures Valid() && Snapshot() == EMPTY
    {
      installed, pending, armed, timers := true, map[], map[], 0;
      cache, cancels, calls := map[], [], [];
    }

    method AddObserver(h: Hash, query: Query)
      requires Valid()
      modifies this`cache
      ensures Valid() && Snapshot() == Step(old(Snapshot()), ObserverAdded(h, query))
      ensures Observers(Snapshot(), h) == Observers(old(Snapshot()), h) + 1
    {
      StepInv(Snapshot(), ObserverAdded(h, query));
      var base := if h in cache then cache[h] else query.(observers := 0);
      cache := cache[h := base.(observers := base.observers + 1)];
    }

    /** An observer leaves; a cancellable read without observers then has exactly one timer, a new one,
        and nothing happens to any other. */
    method RemoveObserver(h: Hash)
      requires Valid() && Possible(Snapshot(), ObserverRemoved(h))
      modifies this
      ensures Valid() && Snapshot() == Step(old(Snapshot()), ObserverRemoved(h))
      ensures h in cache && cache[h].observers == old(cache)[h].observers - 1
      ensures installed && cache[h].finiteRead && cache[h].cancelScope.Some? && cache[h].observers == 0
              ==> h in pending && pending[h] in armed && armed[pending[h]] == Alarm(h, cache[h].cancelScope.value)
                  && pending[h] !in old(armed) && pending == old(pending)[h := pending[h]]
      ensures !(installed && cache[h].finiteRead && cache[h].cancelScope.Some? && cache[h].observers == 0)
              ==> pending == old(pending) && armed == old(armed)
      ensures installed == old(installed) && calls == old(calls) && cancels == old(cancels)
    {
      StepInv(Snapshot(), ObserverRemoved(h));
      cache := cache[h := cache[h].(observers := cache[h].observers - 1)];
      var query := cache[h];
      if !installed || !query.finiteRead || query.cancelScope.None? {
        return;
      }
      if query.observers > 0 {
        return;
      }
      if h in pending {
        armed := armed - {pending[h]};
      }
      armed := armed[timers := Alarm(h, query.cancelScope.value)];
      pending := pending[h := timers];
      timers := timers + 1;
    }

    /** The timer begins a frontend cancel exactly if its query has no observers; the backend is not asked yet. */
    method TimerFires(t: nat)
      requires Valid() && Possible(Snapshot(), TimerFired(t))
      modifies this
      ensures Valid() && Snapshot() == Step(old(Snapshot()), TimerFired(t))
      ensures var alarm := old(armed)[t];
              && alarm.hash !in pending && t !in armed && calls == old(calls)
              && cancels == old(cancels) + if Observers(Snapshot(), alarm.hash) == 0
                                           then [Cancel(alarm.hash, alarm.scope, Frontend)] else []
    {
      StepInv(Snapshot(), TimerFired(t));
      var alarm := armed[t];
      armed := armed - {t};
      pending := pending - {alarm.hash};
      var unobserved := !(alarm.hash in cache && cache[alarm.hash].observers > 0);
      if unobserved {
        cancels := cancels + [Cancel(alarm.hash, alarm.scope, Frontend)];
      }
    }

    /** Once the frontend cancel is done the backend is asked exactly if the query still has no observers. */
    method FrontendSettles(i: nat)
      requires Valid() && Possible(Snapshot(), FrontendCancelled(i))
      modifies this
      ensures Valid() && Snapshot() == Step(old(Snapshot()), FrontendCancelled(i))
      ensures |cancels| == |old(cancels)| && cancels[i].stage != Frontend
      ensures calls == old(calls) + if Observers(Snapshot(), cancels[i].hash) == 0
                                    then [BackendCall(i, cancels[i].hash, cancels[i].scope, 0)] else []
    {
      StepInv(Snapshot(), FrontendCancelled(i));
      var run := cancels[i];
      var unobserved := !(run.hash in cache && cache[run.hash].observers > 0);
      if !unobserved {
        cancels := cancels[i := run.(stage := Done)];
        return;
      }
      calls := calls + [BackendCall(i, run.hash, run.scope, 0)];
      cancels := cancels[i := run.(stage := Backend)];
    }

    /** No timer is left. */
    method Uninstall()
      requires Valid()
      modifies this
      ensures Valid() && Snapshot() == Step(old(Snapshot()), Uninstalled)
      ensures pending == map[] && armed == map[] && calls == old(calls)
    {
      StepInv(Snapshot(), Uninstalled);
      NoTimerIsLeft(Snapshot());
      installed := false;
      ClearTimers();
      pending := map[];
    }

    /** Clears the timer of every pending query. */
    method ClearTimers()
      modifies this`armed
      ensures armed == map t | t in old(armed) && t !in pending.Values :: old(armed)[t]
    {
      ghost var before := armed;
      var hashes := pending.Keys;
      while hashes != {}
        invariant hashes <= pending.Keys
        invariant armed == map t | t in before && !(exists h :: h in pending && h !in hashes && pending[h] == t) :: before[t]
        decreases hashes
        modifies this`armed
      {
        var h :| h in hashes;
        hashes := hashes - {h};
        armed := armed - {pending[h]};
      }
      assert forall t :: t in pending.Values <==> exists h :: h in pending && pending[h] == t;
      assert armed == map t | t in before && t !in pending.Values :: before[t];
    }
  }

  lemma NoTimerIsLeft(s: State)
    requires TimersInv(s)
    ensures OnUninstall(s).armed == map[]
  {
  }
}
