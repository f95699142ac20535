/**
 The refresh throttle and read slots of src/lib/live-view-refresh.ts. `now` is Date.now() during
 the turn; the clock never runs backwards and a timer never fires before its delay is over.
 */
module LiveRefresh {
  import opened Wrappers

  const INTERVAL: int := 250

  // ---------------------------------------------------------------- the throttle

  /** createWatchRefreshThrottle's variables; `armed` maps the timers the host holds to the time
      they are due, and `starts` are the times at which refresh() was called. */
  datatype Throttle = Throttle(
    disposed: bool,
    pending: bool,
    inFlight: bool,
    nextStart: int,
    timer: Option<nat>,
    armed: map<nat, int>,
    timers: nat,
    starts: seq<int>)

  const IDLE := Throttle(false, false, false, 0, None, map[], 0, [])

  function Run(t: Throttle, now: int): Throttle {
    var t0 := t.(timer := None);
    if t.disposed || t.inFlight || !t.pending then t0
    else t0.(pending := false, inFlight := true, nextStart := now + INTERVAL, starts := t.starts + [now])
  }

  function Schedule(t: Throttle, now: int): Throttle {
    if t.disposed || t.inFlight || t.timer.Some? || !t.pending then t
    else if t.nextStart - now <= 0 then Run(t, now)
    else t.(timer := Some(t.timers), timers := t.timers + 1, armed := t.armed[t.timers := t.nextStart])
  }

  function Notify(t: Throttle, now: int): Throttle {
    if t.disposed then t else Schedule(t.(pending := true), now)
  }

  /** run() after its await, whether the refresh succeeded or not. */
  function Settle(t: Throttle, now: int): Throttle {
    Schedule(t.(inFlight := false), now)
  }

  function Fire(t: Throttle, handle: nat, now: int): Throttle {
    Run(t.(armed := t.armed - {handle}), now)
  }

  function Dispose(t: Throttle): Throttle {
    t.(disposed := true, armed := if t.timer.Some? then t.armed - {t.timer.value} else t.armed)
  }

  /** Starts at least INTERVAL apart, the last one INTERVAL before nextStart. */
  ghost predicate Spaced(starts: seq<int>, nextStart: int) {
    && (forall i :: 0 <= i < |starts| - 1 ==> starts[i] + INTERVAL <= starts[i + 1])
    && (starts != [] ==> starts[|starts| - 1] + INTERVAL == nextStart)
  }

  /** The only armed timer is the one the throttle knows, and it is due at nextStart. A wake-up is
      never lost: pending work is in flight behind a refresh or has a timer. Refreshes never overlap. */
  ghost predicate ThrottleInv(t: Throttle) {
    && t.armed == (if t.disposed || t.timer.None? then map[] else map[t.timer.value := t.nextStart])
    && (!t.disposed && t.pending ==> t.inFlight || t.timer.Some?)
    && (!t.disposed && t.timer.Some? ==> !t.inFlight && t.pending)
    && Spaced(t.starts, t.nextStart)
  }

  datatype ThrottleEvent = Notified(now: int) | Settled(now: int) | Fired(handle: nat, now: int) | Disposed

  ghost predicate Possible(t: Throttle, e: ThrottleEvent) {
    match e
    case Settled(_) => t.inFlight
    case Fired(h, now) => h in t.armed && t.armed[h] <= now
    case _ => true
  }

  function ThrottleStep(t: Throttle, e: ThrottleEvent): Throttle {
    match e
    case Notified(now) => Notify(t, now)
    case Settled(now) => Settle(t, now)
    case Fired(h, now) => Fire(t, h, now)
    case Disposed => Dispose(t)
  }

  lemma ThrottleKeeps(t: Throttle, e: ThrottleEvent)
    requires ThrottleInv(t) && Possible(t, e)
    ensures ThrottleInv(ThrottleStep(t, e))
    ensures ThrottleStep(t, e).disposed == (t.disposed || e.Disposed?)
  {
    if e.Fired? {
      assert t.armed - {e.handle} == map[];
    }
    if e.Disposed? && t.timer.Some? {
      assert t.armed - {t.timer.value} == map[];
    }
  }

  ghost function ThrottleAfter(events: seq<ThrottleEvent>): (t: Throttle)
    ensures ThrottleInv(t)
  {
    if events == [] then IDLE
    else
      var t := ThrottleAfter(events[..|events| - 1]);
      var e := events[|events| - 1];
      if Possible(t, e) then ThrottleKeeps(t, e); ThrottleStep(t, e) else t
  }

  /** In every run: at most one timer is armed, and exactly when work is pending with nothing in
      flight; refreshes start at least 250 ms apart; a disposed throttle starts nothing. */
  lemma ThrottleRuns(events: seq<ThrottleEvent>, i: nat, j: nat)
    ensures var t := ThrottleAfter(events);
            && |t.armed| <= 1
            && (t.armed != map[] <==> !t.disposed && t.pending && !t.inFlight)
            && (i < j < |t.starts| ==> t.starts[i] + 250 * (j - i) <= t.starts[j])
  {
    var t := ThrottleAfter(events);
    if i < j < |t.starts| {
      SpacedApart(t.starts, t.nextStart, i, j);
    }
  }

  lemma {:induction false} SpacedApart(starts: seq<int>, nextStart: int, i: nat, j: nat)
    requires Spaced(starts, nextStart) && i <= j < |starts|
    ensures starts[i] + INTERVAL * (j - i) <= starts[j]
    decreases j - i
  {
    if i < j {
      SpacedApart(starts, nextStart, i, j - 1);
      assert starts[j - 1] + INTERVAL <= starts[j];
    }
  }

  lemma DisposedThrottleIsDead(t: Throttle, e: ThrottleEvent)
    requires ThrottleInv(t) && t.disposed && Possible(t, e)
    ensures ThrottleStep(t, e).starts == t.starts && ThrottleStep(t, e).armed == map[]
  {
  }

  // ---------------------------------------------------------------- read slots

  type QueryId = nat
  type QueryKey = string

  /** A query of the cache: whether it is observed, whether it is fetching, and the turn in which
      its last fetch started. */
  datatype Query = Query(key: QueryKey, active: bool, fetching: bool, fetchedAt: nat, stale: bool)

  type Cache = map<QueryId, Query>

  /** A read slot with its throttle and the query cache. `joined` is what the last refresh found
      already fetching, `refreshed` the queries it refetched or joined. */
  datatype Slot = Slot(
    throttle: Throttle,
    wanted: iset<QueryKey>,
    refetch: bool,
    joined: bool,
    cache: Cache,
    turn: nat,
    changedAt: nat,
    startedAt: nat,
    refreshed: set<QueryId>)

  /** The active queries the slot's current read matches. */
  ghost function Shown(cache: Cache, wanted: iset<QueryKey>): set<QueryId> {
    set id | id in cache && cache[id].active && cache[id].key in wanted
  }

  /** invalidateQueries with cancelRefetch false: matching queries become stale, and the active
      ones that are not fetching start to. */
  function Invalidate(cache: Cache, wanted: iset<QueryKey>, refetch: bool, turn: nat): Cache {
    map id | id in cache ::
      var q := cache[id];
      if q.key !in wanted then q
      else if refetch && q.active && !q.fetching then q.(stale := true, fetching := true, fetchedAt := turn)
      else q.(stale := true)
  }

  /** The refresh callback up to its await. */
  ghost function Begin(s: Slot): Slot {
    var shown := Shown(s.cache, s.wanted);
    s.(joined := exists id :: id in shown && s.cache[id].fetching,
       cache := Invalidate(s.cache, s.wanted, true, s.turn),
       startedAt := s.turn,
       refreshed := shown)
  }

  /** Moves the throttle; if that called refresh(), the refresh begins in the same turn. */
  ghost function Advance(s: Slot, t: Throttle): Slot {
    if |t.starts| > |s.throttle.starts| then Begin(s.(throttle := t)) else s.(throttle := t)
  }

  /** The slot's notify(): a watched kind changed. */
  ghost function OnChange(s: Slot, now: int): Slot {
    if !s.refetch then s.(cache := Invalidate(s.cache, s.wanted, false, s.turn))
    else Advance(s.(changedAt := s.turn), Notify(s.throttle, now))
  }

  /** The refresh callback after its await, then run() after its own. */
  ghost function OnRefreshed(s: Slot, now: int): Slot {
    Advance(s, Settle(if s.joined then Notify(s.throttle, now) else s.throttle, now))
  }

  datatype SlotEvent =
    | Changed(now: int)
    | Refreshed(now: int)
    | TimerFired(handle: nat, now: int)
    | Repointed(wanted: iset<QueryKey>, refetch: bool)
    | CacheMoved(cache: Cache)
    | SlotDisposed

  /** Anything may happen to the cache, except that a query's last fetch cannot move back in time
      and a removed query does not come back under its id. */
  ghost predicate CacheMoves(s: Slot, cache: Cache) {
    forall id :: id in cache ==>
      if id in s.cache then s.cache[id].fetchedAt <= cache[id].fetchedAt else id !in s.refreshed
  }

  ghost predicate SlotPossible(s: Slot, e: SlotEvent) {
    match e
    case Refreshed(_) => s.throttle.inFlight
    case TimerFired(h, now) => h in s.throttle.armed && s.throttle.armed[h] <= now
    case CacheMoved(cache) => CacheMoves(s, cache)
    case _ => true
  }

  ghost function SlotStep(before: Slot, e: SlotEvent): Slot {
    var s := before.(turn := before.turn + 1);
    match e
    case Changed(now) => OnChange(s, now)
    case Refreshed(now) => OnRefreshed(s, now)
    case TimerFired(h, now) => Advance(s, Fire(s.throttle, h, now))
    case Repointed(wanted, refetch) => s.(wanted := wanted, refetch := refetch)
    case CacheMoved(cache) => s.(cache := cache)
    case SlotDisposed => s.(throttle := Dispose(s.throttle))
  }

  ghost function NewSlot(wanted: iset<QueryKey>, refetch: bool, cache: Cache): Slot {
    Slot(IDLE, wanted, refetch, false, cache, 0, 0, 0, {})
  }

  ghost predicate SlotInv(s: Slot) {
    && ThrottleInv(s.throttle)
    && s.changedAt <= s.turn && s.startedAt <= s.turn
    && (s.throttle.disposed || s.throttle.pending || s.changedAt <= s.startedAt)
    && (!s.joined ==> forall id :: id in s.refreshed && id in s.cache ==> s.startedAt <= s.cache[id].fetchedAt)
    && (!s.throttle.disposed && !s.throttle.inFlight && !s.throttle.pending ==> !s.joined)
  }

  lemma BeginKeeps(s: Slot)
    requires ThrottleInv(s.throttle) && s.throttle.inFlight && s.changedAt <= s.turn
    ensures SlotInv(Begin(s))
  {
  }

  /** Moving the throttle keeps the slot, where what is still owed stays pending. */
  lemma AdvanceKeeps(s: Slot, t: Throttle)
    requires ThrottleInv(t) && s.changedAt <= s.turn && s.startedAt <= s.turn
    requires |t.starts| > |s.throttle.starts| ==> t.inFlight
    requires |t.starts| <= |s.throttle.starts| ==> SlotInv(s.(throttle := t))
    ensures SlotInv(Advance(s, t))
  {
    if |t.starts| > |s.throttle.starts| { BeginKeeps(s.(throttle := t)); }
  }

  lemma ChangedKeeps(s: Slot, now: int)
    requires SlotInv(s)
    ensures SlotInv(SlotStep(s, Changed(now)))
  {
    ThrottleKeeps(s.throttle, Notified(now));
    var s0 := s.(turn := s.turn + 1);
    if s.refetch { AdvanceKeeps(s0.(changedAt := s0.turn), Notify(s.throttle, now)); }
  }

  lemma RefreshedKeeps(s: Slot, now: int)
    requires SlotInv(s) && s.throttle.inFlight
    ensures SlotInv(SlotStep(s, Refreshed(now)))
  {
    ThrottleKeeps(s.throttle, Notified(now));
    var t := if s.joined then Notify(s.throttle, now) else s.throttle;
    ThrottleKeeps(t, Settled(now));
    AdvanceKeeps(s.(turn := s.turn + 1), Settle(t, now));
  }

  lemma TimerKeeps(s: Slot, handle: nat, now: int)
    requires SlotInv(s) && SlotPossible(s, TimerFired(handle, now))
    ensures SlotInv(SlotStep(s, TimerFired(handle, now)))
  {
    ThrottleKeeps(s.throttle, Fired(handle, now));
    AdvanceKeeps(s.(turn := s.turn + 1), Fire(s.throttle, handle, now));
  }

  lemma CacheKeeps(s: Slot, cache: Cache)
    requires SlotInv(s) && CacheMoves(s, cache)
    ensures SlotInv(SlotStep(s, CacheMoved(cache)))
  {
  }

  lemma SlotKeeps(s: Slot, e: SlotEvent)
    requires SlotInv(s) && SlotPossible(s, e)
    ensures SlotInv(SlotStep(s, e))
  {
    match e
    case Changed(now) => ChangedKeeps(s, now);
    case Refreshed(now) => RefreshedKeeps(s, now);
    case TimerFired(h, now) => TimerKeeps(s, h, now);
    case Repointed(_, _) =>
    case CacheMoved(cache) => CacheKeeps(s, cache);
    case SlotDisposed => ThrottleKeeps(s.throttle, Disposed);
  }

  ghost function SlotAfter(start: Slot, events: seq<SlotEvent>): (s: Slot)
    requires SlotInv(start)
    ensures SlotInv(s)
  {
    if events == [] then start
    else
      var s := SlotAfter(start, events[..|events| - 1]);
      var e := events[|events| - 1];
      if SlotPossible(s, e) then SlotKeeps(s, e); SlotStep(s, e) else s
  }

  /** When a slot comes to rest, every query that was active and matched at its last refresh has a
      fetch that started at or after the last change, although refreshes join running fetches. */
  lemma QuiescentReadsAreFresh(
    wanted: iset<QueryKey>, refetch: bool, cache: Cache, events: seq<SlotEvent>, id: QueryId)
    requires var s := SlotAfter(NewSlot(wanted, refetch, cache), events);
             && !s.throttle.disposed && !s.throttle.pending && !s.throttle.inFlight
             && id in s.refreshed && id in s.cache
    ensures var s := SlotAfter(NewSlot(wanted, refetch, cache), events); s.changedAt <= s.cache[id].fetchedAt
  {
    assert SlotInv(SlotAfter(NewSlot(wanted, refetch, cache), events));
  }

  /** In every run a slot with nothing pending has begun a refresh no earlier than the last change it saw. */
  lemma NothingPendingIsStarted(wanted: iset<QueryKey>, refetch: bool, cache: Cache, events: seq<SlotEvent>)
    requires var s := SlotAfter(NewSlot(wanted, refetch, cache), events); !s.throttle.disposed && !s.throttle.pending
    ensures var s := SlotAfter(NewSlot(wanted, refetch, cache), events); s.changedAt <= s.startedAt <= s.turn
  {
    assert SlotInv(SlotAfter(NewSlot(wanted, refetch, cache), events));
  }

  /** A refresh covers exactly the active queries the slot's read matches at that moment, and
      each of them is fetching when it has begun. */
  lemma RefreshCoversCurrentRead(s: Slot, e: SlotEvent)
    requires SlotInv(s) && SlotPossible(s, e)
    requires |SlotStep(s, e).throttle.starts| > |s.throttle.starts|
    ensures var r := SlotStep(s, e);
            && r.wanted == s.wanted
            && r.refreshed == Shown(s.cache, s.wanted)
            && r.startedAt == s.turn + 1
            && r.changedAt <= r.startedAt
            && (forall id :: id in r.refreshed ==> id in r.cache && r.cache[id].fetching && r.cache[id].stale)
            && (forall id :: id in s.cache && s.cache[id].key !in s.wanted ==> id in r.cache && r.cache[id] == s.cache[id])
  {
    SlotKeeps(s, e);
  }

  /** A refresh joins the fetches it finds running and starts the others; it takes note of the former exactly if there
      were any. No other event touches that note. */
  lemma RefreshJoinsRunningFetches(s: Slot, e: SlotEvent)
    requires SlotInv(s) && SlotPossible(s, e)
    ensures var r := SlotStep(s, e);
            if |r.throttle.starts| > |s.throttle.starts| then
              && (r.joined <==> exists id :: id in s.cache && s.cache[id].active && s.cache[id].key in s.wanted && s.cache[id].fetching)
              && (forall id :: id in r.refreshed ==>
                    && id in s.cache && id in r.cache
                    && r.cache[id].fetchedAt == (if s.cache[id].fetching then s.cache[id].fetchedAt else s.turn + 1))
            else r.joined == s.joined && r.startedAt == s.startedAt
  {
    if |SlotStep(s, e).throttle.starts| > |s.throttle.starts| {
      RefreshIsBegin(s, e);
    } else {
      NoRefreshNoNote(s, e);
    }
  }

  lemma NoRefreshNoNote(s: Slot, e: SlotEvent)
    requires SlotPossible(s, e) && |SlotStep(s, e).throttle.starts| <= |s.throttle.starts|
    ensures SlotStep(s, e).joined == s.joined && SlotStep(s, e).startedAt == s.startedAt
  {
  }

  lemma RefreshIsBegin(s: Slot, e: SlotEvent)
    requires |SlotStep(s, e).throttle.starts| > |s.throttle.starts|
    ensures var r := SlotStep(s, e);
            exists t :: r == Begin(t) && t.cache == s.cache && t.wanted == s.wanted && t.turn == s.turn + 1
  {
    var s1 := s.(turn := s.turn + 1);
    match e
    case Changed(now) => assert SlotStep(s, e) == Begin(s1.(changedAt := s1.turn, throttle := Notify(s.throttle, now)));
    case Refreshed(now) =>
      assert SlotStep(s, e) == Begin(s1.(throttle := Settle(if s.joined then Notify(s.throttle, now) else s.throttle, now)));
    case TimerFired(h, now) => assert SlotStep(s, e) == Begin(s1.(throttle := Fire(s.throttle, h, now)));
  }

  /** Refreshing ends: a refresh that settles is followed by another one, at once or with a timer, exactly if it had
      joined a running fetch or a change came since. */
  lemma SettledRefreshRests(s: Slot, now: int)
    requires SlotInv(s) && SlotPossible(s, Refreshed(now)) && !s.throttle.disposed
    ensures var r := SlotStep(s, Refreshed(now));
            r.throttle.inFlight || r.throttle.pending || r.throttle.armed != map[] <==> s.joined || s.throttle.pending
  {
    RefreshedKeeps(s, now);
    ThrottleKeeps(s.throttle, Notified(now));
  }

  /** Re-pointing a slot keeps its pending refresh and its timer: the refresh that was waiting
      still runs, for what the new read matches. */
  lemma RepointedRefreshRuns(s: Slot, wanted: iset<QueryKey>, refetch: bool, now: int)
    requires SlotInv(s) && !s.throttle.disposed && s.throttle.pending && !s.throttle.inFlight
    requires s.throttle.nextStart <= now
    ensures var r := SlotStep(s, Repointed(wanted, refetch));
            && s.throttle.timer.Some? && SlotPossible(r, TimerFired(s.throttle.timer.value, now))
            && SlotStep(r, TimerFired(s.throttle.timer.value, now)).refreshed == Shown(s.cache, wanted)
            && SlotStep(r, TimerFired(s.throttle.timer.value, now)).throttle.starts == s.throttle.starts + [now]
  {
  }

  /** Work that is pending behind a refresh in flight outlives re-pointing too: when that refresh settles, the pending
      one starts for what the new read matches, at once if the interval is over and else with a timer at its end. */
  lemma RepointedRefreshFollows(s: Slot, wanted: iset<QueryKey>, refetch: bool, now: int)
    requires SlotInv(s) && !s.throttle.disposed && s.throttle.pending && s.throttle.inFlight
    ensures var r := SlotStep(s, Repointed(wanted, refetch));
            && r.throttle == s.throttle && SlotPossible(r, Refreshed(now))
            && var t := SlotStep(r, Refreshed(now));
            if s.throttle.nextStart <= now
            then t.refreshed == Shown(s.cache, wanted) && t.throttle.starts == s.throttle.starts + [now]
            else t.throttle.pending && t.throttle.timer.Some? && t.wanted == wanted
                 && t.throttle.armed == map[t.throttle.timer.value := s.throttle.nextStart]
  {
    var r := SlotStep(s, Repointed(wanted, refetch));
    RefreshedKeeps(r, now);
    ThrottleKeeps(s.throttle, Notified(now));
  }

  /** A read the view does not show is only marked stale. */
  lemma HiddenReadIsOnlyMarked(s: Slot, now: int, id: QueryId)
    requires !s.refetch && id in s.cache
    ensures var r := SlotStep(s, Changed(now));
            && r.throttle == s.throttle && id in r.cache
            && r.cache[id] == s.cache[id].(stale := s.cache[id].stale || s.cache[id].key in s.wanted)
  {
  }

  // ---------------------------------------------------------------- the objects

  class WatchRefreshThrottle {
    var disposed: bool
    var pending: bool
    var inFlight: bool
    var nextStart: int
    var timer: Option<nat>
    var armed: map<nat, int>
    var timers: nat
    ghost var starts: seq<int>

    ghost function State(): Throttle
      reads this
    {
      Throttle.Throttle(disposed, pending, inFlight, nextStart, timer, armed, timers, starts)
    }

    /** No wake-up is lost, refreshes do not overlap, and the one armed timer is known. */
    ghost predicate Valid()
      reads this
    {
      ThrottleInv(State())
    }

    constructor ()
      ensures Valid() && State() == IDLE
    {
      disposed, pending, inFlight, nextStart, timer := false, false, false, 0, None;
      armed, timers, starts := map[], 0, [];
    }

    /** run() up to its await; `started` is whether it called refresh(). */
    method RunRefresh(now: int) returns (started: bool)
      modifies this
      ensures State() == Run(old(State()), now)
      ensures started <==> |starts| > |old(starts)|
    {
      timer := None;
      if disposed || inFlight || !pending {
        return false;
      }
      pending := false;
      inFlight := true;
      nextStart := now + INTERVAL;
      starts := starts + [now];
      return true;
    }

    method ScheduleRefresh(now: int) returns (started: bool)
      modifies this
      ensures State() == Schedule(old(State()), now)
      ensures started <==> |starts| > |old(starts)|
    {
      started := false;
      if disposed || inFlight || timer.Some? || !pending {
        return;
      }
      var delay := nextStart - now;
      if delay <= 0 {
        started := RunRefresh(now);
      } else {
        timer := Some(timers);
        armed := armed[timers := now + delay];
        timers := timers + 1;
      }
    }

    /** A change is never lost: with nothing else to do its refresh starts now, if the last one began 250 ms ago, and
        else at the end of that interval; otherwise it is pending behind the refresh in flight or the timer. */
    method NotifyChange(now: int) returns (started: bool)
      requires Valid()
      modifies this
      ensures Valid() && State() == Notify(old(State()), now)
      ensures starts == if started then old(starts) + [now] else old(starts)
      ensures !disposed && !started ==> pending && (inFlight || timer.Some?)
      ensures started <==> !old(disposed) && !old(inFlight) && !old(pending) && old(nextStart) <= now
      ensures nextStart == if started then now + 250 else old(nextStart)
      ensures !disposed && !old(inFlight) && !started ==> timer.Some? && armed == map[timer.value := nextStart]
    {
      ThrottleKeeps(State(), Notified(now));
      started := false;
      if !disposed {
        pending := true;
        started := ScheduleRefresh(now);
      }
    }

    /** A settled refresh is followed by the pending one, now or at the end of the interval. */
    method RefreshSettled(now: int) returns (started: bool)
      requires Valid() && inFlight
      modifies this
      ensures Valid() && State() == Settle(old(State()), now)
      ensures starts == if started then old(starts) + [now] else old(starts)
      ensures started <==> !disposed && old(pending) && old(nextStart) <= now
      ensures nextStart == if started then now + 250 else old(nextStart)
      ensures !disposed && old(pending) && !started ==> timer.Some? && !inFlight && armed == map[timer.value := nextStart]
    {
      ThrottleKeeps(State(), Settled(now));
      inFlight := false;
      started := ScheduleRefresh(now);
    }

    /** A timer that fires starts the refresh that was pending, at least one interval after the last start. */
    method TimerFires(handle: nat, now: int) returns (started: bool)
      requires Valid() && handle in armed && armed[handle] <= now
      modifies this
      ensures Valid() && State() == Fire(old(State()), handle, now)
      ensures started && starts == old(starts) + [now] && inFlight && !pending && armed == map[]
      ensures old(starts) != [] ==> old(starts)[|old(starts)| - 1] + 250 <= now
    {
      ThrottleKeeps(State(), Fired(handle, now));
      armed := armed - {handle};
      started := RunRefresh(now);
    }

    /** No timer is left, and nothing starts any more. */
    method Stop()
      requires Valid()
      modifies this
      ensures Valid() && State() == Dispose(old(State()))
      ensures disposed && armed == map[] && starts == old(starts)
    {
      ThrottleKeeps(State(), Disposed);
      disposed := true;
      if timer.Some? {
        armed := armed - {timer.value};
      }
    }
  }

  /** createReadSlot, with the closure of createReadRefresh; the query client is its `cache`. */
  class ReadSlot {
    const throttle: WatchRefreshThrottle
    var wanted: iset<QueryKey>
    var refetch: bool
    var alreadyFetching: bool
    var cache: Cache
    var turn: nat
    ghost var changedAt: nat
    ghost var startedAt: nat
    ghost var refreshed: set<QueryId>

    ghost function State(): Slot
      reads this, throttle
    {
      Slot.Slot(throttle.State(), wanted, refetch, alreadyFetching, cache, turn, changedAt, startedAt, refreshed)
    }

    /** The throttle is sound, and a refresh that joined running fetches has another one coming. */
    ghost predicate Valid()
      reads this, throttle
    {
      throttle.Valid() && SlotInv(State())
    }

    constructor (wanted: iset<QueryKey>, refetch: bool, cache: Cache)
      ensures Valid() && State() == NewSlot(wanted, refetch, cache) && fresh(throttle)
    {
      throttle := new WatchRefreshThrottle();
      this.wanted, this.refetch, this.cache := wanted, refetch, cache;
      alreadyFetching, turn, changedAt, startedAt, refreshed := false, 0, 0, 0, {};
    }

    /** The refresh callback up to its await. */
    method BeginRefresh()
      modifies this`alreadyFetching, this`cache, this`startedAt, this`refreshed
      ensures State() == Begin(old(State()))
    {
      refreshed := Shown(cache, wanted);
      alreadyFetching := exists id :: id in cache && cache[id].active && cache[id].key in wanted && cache[id].fetching;
      cache := Invalidate(cache, wanted, true, turn);
      startedAt := turn;
    }

    /** A change refetches the matching queries now or leaves a refresh pending; a hidden read is only marked stale. */
    method NotifyChange(now: int)
      requires Valid()
      modifies this, throttle
      ensures Valid() && State() == SlotStep(old(State()), Changed(now))
      ensures refetch && !throttle.disposed ==> changedAt == turn && (startedAt == turn || throttle.pending)
      ensures !refetch ==> throttle.State() == old(throttle.State())
    {
      SlotKeeps(State(), Changed(now));
      turn := turn + 1;
      if !refetch {
        cache := Invalidate(cache, wanted, false, turn);
        return;
      }
      changedAt := turn;
      var started := throttle.NotifyChange(now);
      if started {
        BeginRefresh();
      }
    }

    /** A refresh that joined a running fetch is followed by another one, now or pending; one that joined
        none ends the work unless a change came since. */
    method RefreshSettled(now: int)
      requires Valid() && throttle.inFlight
      modifies this, throttle
      ensures Valid() && State() == SlotStep(old(State()), Refreshed(now))
      ensures old(alreadyFetching) && !throttle.disposed ==> startedAt == turn || throttle.pending
      ensures !old(alreadyFetching) && !old(throttle.pending) ==>
                !throttle.inFlight && !throttle.pending && cache == old(cache) && startedAt == old(startedAt)
    {
      SlotKeeps(State(), Refreshed(now));
      turn := turn + 1;
      if alreadyFetching {
        var waiting := throttle.NotifyChange(now);
      }
      var started := throttle.RefreshSettled(now);
      if started {
        BeginRefresh();
      }
    }

    /** A timer that fires begins the pending refresh for what the read matches then. */
    method TimerFires(handle: nat, now: int)
      requires Valid() && handle in throttle.armed && throttle.armed[handle] <= now
      modifies this, throttle
      ensures Valid() && State() == SlotStep(old(State()), TimerFired(handle, now))
      ensures startedAt == turn && refreshed == Shown(old(cache), wanted)
    {
      SlotKeeps(State(), TimerFired(handle, now));
      turn := turn + 1;
      var started := throttle.TimerFires(handle, now);
      BeginRefresh();
    }

    /** Re-pointing leaves what is pending, in flight or armed as it is. */
    method Set(wanted: iset<QueryKey>, refetch: bool)
      requires Valid()
      modifies this
      ensures Valid() && State() == SlotStep(old(State()), Repointed(wanted, refetch))
      ensures throttle.State() == old(throttle.State()) && this.wanted == wanted && cache == old(cache)
    {
      SlotKeeps(State(), Repointed(wanted, refetch));
      turn := turn + 1;
      this.wanted, this.refetch := wanted, refetch;
    }

    /** The query client changes its cache between the slot's turns. */
    method CacheChanges(cache: Cache)
      requires Valid() && CacheMoves(State(), cache)
      modifies this
      ensures Valid() && State() == SlotStep(old(State()), CacheMoved(cache))
    {
      SlotKeeps(State(), CacheMoved(cache));
      turn := turn + 1;
      this.cache := cache;
    }

    /** No timer is left. */
    method Stop()
      requires Valid()
      modifies this, throttle
      ensures Valid() && State() == SlotStep(old(State()), SlotDisposed)
      ensures throttle.disposed && throttle.armed == map[]
    {
      SlotKeeps(State(), SlotDisposed);
      turn := turn + 1;
      throttle.Stop();
    }
  }
}
