/**
 What a view binds: one watch scope at most, one slot per declared read, and the retry of a failed
 read (src/lib/live-view-refresh.ts). A slot's throttle is the one of LiveRefresh.dfy; the watch
 scope is the one of ResourceWatch.dfy, here by the keys it was last given.
 */
module LiveView {
  import opened Wrappers
  import opened Text
  import LiveRefresh

  datatype KindKey = KindKey(kind: string, group: Option<string>, apiVersion: Option<string>, namespace: Option<string>)

  datatype Read = Read(keys: seq<KindKey>, wanted: iset<string>, refetch: bool)

  datatype View = View(keys: seq<KindKey>, declared: seq<Read>)

  // ---------------------------------------------------------------- which reads a kind keeps fresh

  /** A key without a group has that of its apiVersion. */
  function WatchGroup(key: KindKey): string {
    match (key.group, key.apiVersion)
    case (Some(group), _) => group
    case (None, Some(version)) => if IndexOf(version, '/') < |version| then version[..IndexOf(version, '/')] else ""
    case (None, None) => ""
  }

  predicate KeyMatches(key: KindKey, candidate: KindKey) {
    && key.kind == candidate.kind && WatchGroup(key) == WatchGroup(candidate)
    && (!HasText(key.namespace) || !HasText(candidate.namespace) || key.namespace == candidate.namespace)
  }

  predicate KeptFreshBy(read: Read, key: KindKey) {
    exists i :: 0 <= i < |read.keys| && KeyMatches(read.keys[i], key)
  }

  /** The key is of this API group: it names the group, or its apiVersion is the group, a slash and a version; one
      that does neither is of the core group, which is the empty text. */
  ghost predicate OfGroup(key: KindKey, group: string) {
    match key.group
    case Some(named) => named == group
    case None =>
      match key.apiVersion
      case Some(text) =>
        if '/' in text then '/' !in group && exists version :: text == group + ['/'] + version
        else group == ""
      case None => group == ""
  }

  /** The group before the slash of an apiVersion. */
  lemma GroupBeforeSlash(group: string, version: string)
    requires '/' !in group
    ensures var text := group + ['/'] + version;
            IndexOf(text, '/') == |group| < |text| && text[..|group|] == group && '/' in text
  {
    var text := group + ['/'] + version;
    assert text[|group|] == '/';
    assert forall i :: 0 <= i < |group| ==> text[i] == group[i];
  }

  /** Every key is of exactly one group, the one the code takes from it. */
  lemma GroupIs(key: KindKey, group: string)
    ensures OfGroup(key, group) <==> WatchGroup(key) == group
  {
    if key.group.None? && key.apiVersion.Some? {
      var text := key.apiVersion.value;
      var at := IndexOf(text, '/');
      if at < |text| {
        assert text == text[..at] + ['/'] + text[at + 1..];
        assert '/' in text;
        if '/' !in group && exists version :: text == group + ['/'] + version {
          var version :| text == group + ['/'] + version;
          GroupBeforeSlash(group, version);
        }
      } else {
        assert text[..at] == text;
      }
    }
  }

  /** Whether a key watches a kind of a group in a namespace; one without a namespace watches all of them. */
  ghost predicate Watches(key: KindKey, kind: string, group: string, namespace: string) {
    && key.kind == kind && OfGroup(key, group)
    && (key.namespace == None || key.namespace == Some("") || key.namespace == Some(namespace))
  }

  /** Keys match exactly when some resource is watched by both. */
  lemma KeysMatchWhenTheyOverlap(a: KindKey, b: KindKey)
    ensures KeyMatches(a, b) <==> exists kind, group, namespace :: Watches(a, kind, group, namespace) && Watches(b, kind, group, namespace)
  {
    GroupIs(a, WatchGroup(a));
    if KeyMatches(a, b) {
      GroupIs(b, WatchGroup(a));
      var namespace := if HasText(a.namespace) then a.namespace.value else b.namespace.GetOr("");
      assert Watches(a, a.kind, WatchGroup(a), namespace) && Watches(b, a.kind, WatchGroup(a), namespace);
    }
    if kind, group, namespace :| Watches(a, kind, group, namespace) && Watches(b, kind, group, namespace) {
      GroupIs(a, group);
      GroupIs(b, group);
    }
  }

  /** A read declared by apiVersion matches a change of the same kind, namespace and literal group, whatever else the
      change names, and a change of another group never. */
  lemma ApiVersionMatchesGroup(kind: string, group: string, version: string, namespace: Option<string>,
                               other: string, apiVersion: Option<string>)
    requires '/' !in group
    ensures KeyMatches(KindKey(kind, None, Some(group + ['/'] + version), namespace), KindKey(kind, Some(other), apiVersion, namespace))
       <==> group == other
  {
    GroupBeforeSlash(group, version);
  }

  /** A version without a slash is of the core group. */
  lemma PlainVersionIsCore(kind: string, version: string, namespace: Option<string>, other: string, apiVersion: Option<string>)
    requires '/' !in version
    ensures KeyMatches(KindKey(kind, None, Some(version), namespace), KindKey(kind, Some(other), apiVersion, namespace))
       <==> other == ""
  {
    assert IndexOf(version, '/') == |version|;
  }

  /** A named group wins over the apiVersion. */
  lemma NamedGroupWins(kind: string, group: string, other: string, a: Option<string>, b: Option<string>, namespace: Option<string>)
    ensures KeyMatches(KindKey(kind, Some(group), a, namespace), KindKey(kind, Some(other), b, namespace)) <==> group == other
  {
  }

  /** A change of the kind makes the read stale: one of its keys watches a resource the changed key watches. */
  ghost predicate Stale(read: Read, key: KindKey) {
    exists i :: 0 <= i < |read.keys| && Overlap(read.keys[i], key)
  }

  ghost predicate Overlap(a: KindKey, b: KindKey) {
    exists kind, group, namespace :: Watches(a, kind, group, namespace) && Watches(b, kind, group, namespace)
  }

  lemma StaleIsKeptFresh(read: Read, key: KindKey)
    ensures Stale(read, key) <==> KeptFreshBy(read, key)
  {
    forall i | 0 <= i < |read.keys| ensures Overlap(read.keys[i], key) <==> KeyMatches(read.keys[i], key) {
      KeysMatchWhenTheyOverlap(read.keys[i], key);
    }
  }

  // ---------------------------------------------------------------- the binding

  datatype Slot = Slot(id: nat, read: Read, throttle: LiveRefresh.Throttle)

  /** A watch scope the binding made: the keys it was last given, and whether it was stopped. */
  datatype Scope = Scope(keys: seq<KindKey>, stopped: bool)

  datatype State = State(
    current: View,
    stopped: bool,
    observer: Option<nat>,        // index into scopes
    slots: seq<Slot>,
    nextSlot: nat,
    scopes: seq<Scope>,
    retired: seq<Slot>,           // slots that were disposed
    idle: nat)                    // times the idle state was reported

  function Retire(slots: seq<Slot>): (r: seq<Slot>)
    ensures |r| == |slots| && forall i :: 0 <= i < |slots| ==> r[i] == slots[i].(throttle := LiveRefresh.Dispose(slots[i].throttle))
  {
    seq(|slots|, i requires 0 <= i < |slots| => slots[i].(throttle := LiveRefresh.Dispose(slots[i].throttle)))
  }

  /** The slot of the i-th declared read: the one that was there, re-pointed, or a new one. */
  function SlotFor(s: State, declared: seq<Read>, i: nat): Slot
    requires i < |declared|
  {
    if i < |s.slots| then s.slots[i].(read := declared[i])
    else Slot(s.nextSlot + (i - |s.slots|), declared[i], LiveRefresh.IDLE)
  }

  function Pointed(s: State, declared: seq<Read>, n: nat): (r: seq<Slot>)
    requires n <= |declared|
    ensures |r| == n && forall i :: 0 <= i < n ==> r[i] == SlotFor(s, declared, i)
  {
    seq(n, i requires 0 <= i < n => SlotFor(s, declared, i))
  }

  function StopScope(s: State): State
    requires s.observer.Some? ==> s.observer.value < |s.scopes|
  {
    if s.observer.None? then s
    else s.(observer := None, scopes := s.scopes[s.observer.value := s.scopes[s.observer.value].(stopped := true)])
  }

  function Observe(s: State, keys: seq<KindKey>): State
    requires s.observer.Some? ==> s.observer.value < |s.scopes|
  {
    if keys == [] then StopScope(s).(idle := s.idle + 1)
    else if s.observer.Some? then s.(scopes := s.scopes[s.observer.value := s.scopes[s.observer.value].(keys := keys)])
    else s.(observer := Some(|s.scopes|), scopes := s.scopes + [Scope(keys, false)])
  }

  /** The slots that remain beyond the declared reads. */
  function Leftover(s: State, n: nat): seq<Slot> { if n < |s.slots| then s.slots[n..] else [] }

  /** apply() up to its observer: each declared read gets the slot of its position. */
  function Repoint(s: State, next: View): State {
    var n := |next.declared|;
    s.(current := next, slots := Pointed(s, next.declared, n),
       nextSlot := s.nextSlot + if n > |s.slots| then n - |s.slots| else 0,
       retired := s.retired + Retire(Leftover(s, n)))
  }

  /** apply(). */
  function Apply(s: State, next: View): State
    requires s.observer.Some? ==> s.observer.value < |s.scopes|
  {
    Observe(Repoint(s, next), next.keys)
  }

  function OnUpdate(s: State, next: View): State
    requires s.observer.Some? ==> s.observer.value < |s.scopes|
  {
    if s.stopped then s else Apply(s, next)
  }

  function OnStop(s: State): State
    requires s.observer.Some? ==> s.observer.value < |s.scopes|
  {
    StopScope(s).(stopped := true, slots := [], retired := s.retired + Retire(s.slots))
  }

  /** A slot's notify(): its throttle is woken unless the read is only marked stale. */
  function Notified(slot: Slot, key: KindKey, now: int): Slot {
    if KeptFreshBy(slot.read, key) && slot.read.refetch
    then slot.(throttle := LiveRefresh.Notify(slot.throttle, now)) else slot
  }

  function OnChange(s: State, key: KindKey, now: int): State {
    s.(slots := seq(|s.slots|, i requires 0 <= i < |s.slots| => Notified(s.slots[i], key, now)))
  }

  function Refetched(declared: seq<Read>): seq<Read> {
    if declared == [] then [] else (if declared[0].refetch then [declared[0]] else []) + Refetched(declared[1..])
  }

  /** The reads a permission recovery rereads. */
  function DeniedReads(declared: seq<Read>, denied: seq<KindKey>): seq<Read> {
    if declared == [] then []
    else (if FreshByAny(declared[0], denied) then [declared[0]] else []) + DeniedReads(declared[1..], denied)
  }

  predicate FreshByAny(read: Read, denied: seq<KindKey>) {
    exists i :: 0 <= i < |denied| && KeptFreshBy(read, denied[i])
  }

  /** What the binding keeps: one live scope at most, for the view's keys; one slot per declared
      read, pointing at it; and no slot that was disposed is used again. */
  ghost predicate Inv(s: State) {
    && (if s.stopped then s.slots == [] && s.observer.None?
        else |s.slots| == |s.current.declared| && (s.observer.None? <==> s.current.keys == []))
    && (forall i :: 0 <= i < |s.slots| ==> s.slots[i].read == s.current.declared[i])
    && (s.observer.Some? ==> s.observer.value < |s.scopes| && s.scopes[s.observer.value].keys == s.current.keys)
    && (forall i :: 0 <= i < |s.scopes| ==> (s.scopes[i].stopped <==> s.observer != Some(i)))
    && SlotsInv(s)
  }

  ghost predicate SlotsInv(s: State) {
    && (forall i :: 0 <= i < |s.slots| ==>
          s.slots[i].id < s.nextSlot && LiveRefresh.ThrottleInv(s.slots[i].throttle) && !s.slots[i].throttle.disposed)
    && (forall i, j :: 0 <= i < j < |s.slots| ==> s.slots[i].id != s.slots[j].id)
    && (forall i :: 0 <= i < |s.retired| ==> s.retired[i].id < s.nextSlot && Dead(s.retired[i].throttle))
    && (forall i, j :: 0 <= i < |s.retired| && 0 <= j < |s.slots| ==> s.retired[i].id != s.slots[j].id)
  }

  /** A disposed throttle holds no timer. */
  ghost predicate Dead(t: LiveRefresh.Throttle) { t.disposed && t.armed == map[] }

  lemma DisposeKills(t: LiveRefresh.Throttle)
    requires LiveRefresh.ThrottleInv(t) && !t.disposed
    ensures Dead(LiveRefresh.Dispose(t))
  {
  }

  lemma RetiredAreDead(slots: seq<Slot>, i: nat)
    requires i < |slots| && LiveRefresh.ThrottleInv(slots[i].throttle) && !slots[i].throttle.disposed
    ensures Dead(Retire(slots)[i].throttle) && Retire(slots)[i].id == slots[i].id
  {
    DisposeKills(slots[i].throttle);
  }

  ghost predicate InUse(slots: seq<Slot>, nextSlot: nat) {
    forall i :: 0 <= i < |slots| ==>
      slots[i].id < nextSlot && LiveRefresh.ThrottleInv(slots[i].throttle) && !slots[i].throttle.disposed
  }

  ghost predicate Disjoint(gone: seq<Slot>, kept: seq<Slot>) {
    forall i, j :: 0 <= i < |gone| && 0 <= j < |kept| ==> gone[i].id != kept[j].id
  }

  /** `kept` are the slots in use, `gone` are in use no more. */
  lemma RetireKeeps(s: State, kept: seq<Slot>, gone: seq<Slot>, nextSlot: nat)
    requires InUse(gone, nextSlot) && Disjoint(gone, kept)
    requires SlotsInv(s.(slots := kept, nextSlot := nextSlot))
    ensures SlotsInv(s.(slots := kept, nextSlot := nextSlot, retired := s.retired + Retire(gone)))
  {
    var dead := Retire(gone);
    forall i | 0 <= i < |dead|
      ensures dead[i].id < nextSlot && Dead(dead[i].throttle) && dead[i].id == gone[i].id
    {
      RetiredAreDead(gone, i);
    }
  }

  lemma PointedSlots(s: State, declared: seq<Read>)
    requires SlotsInv(s)
    ensures var n := |declared|;
            SlotsInv(s.(slots := Pointed(s, declared, n), nextSlot := s.nextSlot + if n > |s.slots| then n - |s.slots| else 0))
  {
    var n := |declared|;
    var slots := Pointed(s, declared, n);
    forall i | 0 <= i < n
      ensures slots[i].id == if i < |s.slots| then s.slots[i].id else s.nextSlot + (i - |s.slots|)
    {
    }
  }

  lemma LeftoverIsDisjoint(s: State, declared: seq<Read>)
    requires SlotsInv(s)
    ensures InUse(Leftover(s, |declared|), s.nextSlot)
    ensures Disjoint(Leftover(s, |declared|), Pointed(s, declared, |declared|))
  {
    var n := |declared|;
    var gone, kept := Leftover(s, n), Pointed(s, declared, n);
    forall i, j | 0 <= i < |gone| && 0 <= j < |kept|
      ensures gone[i].id != kept[j].id
    {
      assert gone[i] == s.slots[n + i] && kept[j] == SlotFor(s, declared, j);
    }
  }

  lemma RepointSlots(s: State, next: View)
    requires SlotsInv(s)
    ensures SlotsInv(Repoint(s, next))
  {
    var n := |next.declared|;
    PointedSlots(s, next.declared);
    LeftoverIsDisjoint(s, next.declared);
    RetireKeeps(s, Pointed(s, next.declared, n), Leftover(s, n), s.nextSlot + if n > |s.slots| then n - |s.slots| else 0);
  }

  lemma ApplyKeeps(s: State, next: View)
    requires Inv(s) && !s.stopped
    ensures Inv(Apply(s, next))
  {
    RepointSlots(s, next);
    var r := Apply(s, next);
    assert r.slots == Pointed(s, next.declared, |next.declared|);
  }

  lemma StopKeeps(s: State)
    requires Inv(s)
    ensures Inv(OnStop(s))
  {
    assert SlotsInv(s.(slots := []));
    RetireKeeps(s, [], s.slots, s.nextSlot);
  }

  lemma ChangeKeeps(s: State, key: KindKey, now: int)
    requires Inv(s)
    ensures Inv(OnChange(s, key, now))
  {
    var r := OnChange(s, key, now);
    forall i | 0 <= i < |r.slots|
      ensures r.slots[i].id == s.slots[i].id && r.slots[i].read == s.slots[i].read
      ensures LiveRefresh.ThrottleInv(r.slots[i].throttle) && !r.slots[i].throttle.disposed
    {
      LiveRefresh.ThrottleKeeps(s.slots[i].throttle, LiveRefresh.Notified(now));
    }
  }

  // ---------------------------------------------------------------- every run

  /** What happens to a binding; SlotMoves stands for its slot's own timers and settled refreshes. */
  datatype Event =
    | Updated(view: View)
    | Stopped
    | Changed(key: KindKey, now: int)
    | SlotMoves(slot: nat, event: LiveRefresh.ThrottleEvent)

  ghost predicate Possible(s: State, e: Event) {
    e.SlotMoves? ==> e.slot < |s.slots| && !e.event.Disposed? && LiveRefresh.Possible(s.slots[e.slot].throttle, e.event)
  }

  ghost function Step(s: State, e: Event): State
    requires Inv(s) && Possible(s, e)
  {
    match e
    case Updated(view) => OnUpdate(s, view)
    case Stopped => OnStop(s)
    case Changed(key, now) => OnChange(s, key, now)
    case SlotMoves(i, event) =>
      s.(slots := s.slots[i := s.slots[i].(throttle := LiveRefresh.ThrottleStep(s.slots[i].throttle, event))])
  }

  lemma StepKeeps(s: State, e: Event)
    requires Inv(s) && Possible(s, e)
    ensures Inv(Step(s, e))
  {
    match e
    case Updated(view) => if !s.stopped { ApplyKeeps(s, view); }
    case Stopped => StopKeeps(s);
    case Changed(key, now) => ChangeKeeps(s, key, now);
    case SlotMoves(i, event) => LiveRefresh.ThrottleKeeps(s.slots[i].throttle, event);
  }

  function Bind(view: View): State {
    Apply(State(view, false, None, [], 0, [], [], 0), view)
  }

  lemma BindInv(view: View)
    ensures Inv(Bind(view))
  {
    var blank := State(view, false, None, [], 0, [], [], 0);
    RepointSlots(blank, view);
    assert Bind(view).slots == Pointed(blank, view.declared, |view.declared|);
  }

  ghost function After(view: View, events: seq<Event>): (s: State)
    ensures Inv(s)
  {
    if events == [] then
      BindInv(view);
      Bind(view)
    else
      var s := After(view, events[..|events| - 1]);
      var e := events[|events| - 1];
      if Possible(s, e) then StepKeeps(s, e); Step(s, e) else s
  }

  /** In every run at most one watch scope is live; it has the view's keys, and there is none once
      the binding stopped or while the view watches nothing. */
  lemma OneLiveScope(view: View, events: seq<Event>, i: nat)
    requires var s := After(view, events); i < |s.scopes| && !s.scopes[i].stopped
    ensures var s := After(view, events);
            && !s.stopped && s.scopes[i].keys == s.current.keys != []
            && forall j :: 0 <= j < |s.scopes| && !s.scopes[j].stopped ==> j == i
  {
    assert Inv(After(view, events));
  }

  /** In every run each declared read has a slot of its own, and a disposed slot stays out of use and holds no timer. */
  lemma OneSlotPerRead(view: View, events: seq<Event>)
    ensures var s := After(view, events);
            && (!s.stopped ==> |s.slots| == |s.current.declared|)
            && (forall i :: 0 <= i < |s.slots| ==> s.slots[i].read == s.current.declared[i])
            && (forall i, j :: 0 <= i < j < |s.slots| ==> s.slots[i].id != s.slots[j].id)
            && (forall i :: 0 <= i < |s.retired| ==> s.retired[i].throttle.armed == map[])
            && (forall i, j :: 0 <= i < |s.retired| && 0 <= j < |s.slots| ==> s.retired[i].id != s.slots[j].id)
  {
    assert Inv(After(view, events));
  }

  /** An update keeps the slot of every position it still has, with the refresh that waits there. */
  lemma UpdateKeepsPending(s: State, next: View, i: nat)
    requires Inv(s) && !s.stopped && i < |s.slots| && i < |next.declared|
    ensures var r := OnUpdate(s, next);
            && i < |r.slots| && r.slots[i].id == s.slots[i].id && r.slots[i].throttle == s.slots[i].throttle
            && r.slots[i].read == next.declared[i]
  {
    assert OnUpdate(s, next).slots == Pointed(s, next.declared, |next.declared|);
  }

  /** After a change no read that it makes stale and the view refetches is left without a wake-up:
      its refresh started in this turn, or one runs or is due and another follows. */
  lemma ChangeWakesItsReads(view: View, events: seq<Event>, key: KindKey, now: int, i: nat)
    requires var s := After(view, events); i < |s.slots|
    ensures var s := After(view, events);
            var r := OnChange(s, key, now);
            && i < |r.slots|
            && (if Stale(s.slots[i].read, key) && s.slots[i].read.refetch
                then r.slots[i].throttle.starts == s.slots[i].throttle.starts + [now]
                     || (r.slots[i].throttle.pending && (r.slots[i].throttle.inFlight || r.slots[i].throttle.timer.Some?))
                else r.slots[i] == s.slots[i])
  {
    StaleIsKeptFresh(After(view, events).slots[i].read, key);
  }

  /** A permission recovery rereads a read exactly when the view refetches it and a denied kind keeps it fresh. */
  lemma {:induction false} DeniedReadsAre(declared: seq<Read>, denied: seq<KindKey>, read: Read)
    ensures read in DeniedReads(Refetched(declared), denied)
       <==> read in declared && read.refetch && exists i :: 0 <= i < |denied| && Stale(read, denied[i])
  {
    forall i | 0 <= i < |denied| ensures Stale(read, denied[i]) <==> KeptFreshBy(read, denied[i]) {
      StaleIsKeptFresh(read, denied[i]);
    }
    if declared != [] {
      DeniedReadsAre(declared[1..], denied, read);
      var rest := Refetched(declared[1..]);
      assert declared == [declared[0]] + declared[1..];
      if declared[0].refetch {
        assert Refetched(declared) == [declared[0]] + rest;
        assert ([declared[0]] + rest)[1..] == rest;
      } else {
        assert Refetched(declared) == rest;
      }
    }
  }

  // ---------------------------------------------------------------- the object

  class LiveViewBinding {
    var current: View
    var stopped: bool
    var observer: Option<nat>
    var slots: seq<Slot>
    var nextSlot: nat
    var scopes: seq<Scope>        // every watch scope the binding made
    ghost var retired: seq<Slot>
    ghost var idle: nat

    ghost function Now(): State
      reads this
    {
      State.State(current, stopped, observer, slots, nextSlot, scopes, retired, idle)
    }

    constructor (view: View)
      ensures Now() == Bind(view) && Inv(Now())
    {
      current, stopped, observer, slots, nextSlot := view, false, None, [], 0;
      scopes, retired, idle := [], [], 0;
      new;
      ApplyView(view);
      BindInv(view);
    }

    method ApplyView(next: View)
      requires observer.Some? ==> observer.value < |scopes|
      modifies this
      ensures Now() == Apply(old(Now()), next)
    {
      PointSlots(next);
      if next.keys == [] {
        StopObserver();
        idle := idle + 1;
      } else if observer.Some? {
        scopes := scopes[observer.value := scopes[observer.value].(keys := next.keys)];
      } else {
        observer := Some(|scopes|);
        scopes := scopes + [Scope(next.keys, false)];
      }
    }

    /** The loops of apply() over the declared reads and the slots that are left over. */
    method PointSlots(next: View)
      modifies this`current, this`slots, this`nextSlot, this`retired
      ensures Now() == Repoint(old(Now()), next)
    {
      ghost var s := Now();
      current := next;
      var n, index := |next.declared|, 0;
      while index < n
        invariant index <= n && |slots| == (if index < |s.slots| then |s.slots| else index)
        invariant nextSlot == s.nextSlot + (|slots| - |s.slots|)
        invariant Now() == s.(current := next, slots := slots, nextSlot := nextSlot)
        invariant forall i :: 0 <= i < index ==> slots[i] == SlotFor(s, next.declared, i)
        invariant forall i :: index <= i < |s.slots| ==> slots[i] == s.slots[i]
      {
        if index < |slots| {
          slots := slots[index := slots[index].(read := next.declared[index])];
        } else {
          slots := slots + [Slot(nextSlot, next.declared[index], LiveRefresh.IDLE)];
          nextSlot := nextSlot + 1;
        }
        index := index + 1;
      }
      assert slots[..n] == Pointed(s, next.declared, n);
      assert slots[n..] == Leftover(s, n);
      assert nextSlot == s.nextSlot + if n > |s.slots| then n - |s.slots| else 0;
      retired := retired + Retire(slots[n..]);
      slots := slots[..n];
    }

    method StopObserver()
      requires observer.Some? ==> observer.value < |scopes|
      modifies this`observer, this`scopes
      ensures Now() == StopScope(old(Now()))
    {
      if observer.Some? {
        scopes := scopes[observer.value := scopes[observer.value].(stopped := true)];
      }
      observer := None;
    }

    method Update(next: View)
      requires Inv(Now())
      modifies this
      ensures Inv(Now()) && Now() == OnUpdate(old(Now()), next)
      ensures stopped == old(stopped)
      ensures !stopped ==> current == next && |slots| == |next.declared| && (observer.None? <==> next.keys == [])
      ensures !stopped && next.keys != [] ==> observer.value < |scopes| && scopes[observer.value] == Scope(next.keys, false)
      ensures !stopped && next.keys != [] && old(observer).Some? ==> observer == old(observer)
    {
      StepKeeps(Now(), Updated(next));
      if !stopped { ApplyView(next); }
    }

    /** handlers.onChange for a watched kind. */
    method KindChanged(key: KindKey, now: int)
      requires Inv(Now())
      modifies this`slots
      ensures Inv(Now()) && Now() == OnChange(old(Now()), key, now)
      ensures |slots| == |old(slots)|
      ensures forall i :: 0 <= i < |slots| && !(Stale(old(slots)[i].read, key) && old(slots)[i].read.refetch) ==> slots[i] == old(slots)[i]
      ensures forall i :: 0 <= i < |slots| && Stale(old(slots)[i].read, key) && old(slots)[i].read.refetch ==>
                || slots[i].throttle.starts == old(slots)[i].throttle.starts + [now]
                || (slots[i].throttle.pending && (slots[i].throttle.inFlight || slots[i].throttle.timer.Some?))
    {
      ghost var s := Now();
      forall i | 0 <= i < |slots| ensures Stale(slots[i].read, key) <==> KeptFreshBy(slots[i].read, key) {
        StaleIsKeptFresh(slots[i].read, key);
      }
      ChangeKeeps(s, key, now);
      var i := 0;
      while i < |slots|
        invariant i <= |slots| == |s.slots|
        invariant forall j :: 0 <= j < i ==> slots[j] == Notified(s.slots[j], key, now)
        invariant forall j :: i <= j < |slots| ==> slots[j] == s.slots[j]
      {
        slots := slots[i := Notified(slots[i], key, now)];
        i := i + 1;
      }
      assert slots == OnChange(s, key, now).slots;
    }

    method Stop()
      requires Inv(Now())
      modifies this
      ensures Inv(Now()) && Now() == OnStop(old(Now()))
      ensures stopped && slots == [] && observer == None && forall i :: 0 <= i < |scopes| ==> scopes[i].stopped
      ensures |retired| == |old(retired)| + |old(slots)|
    {
      StopKeeps(Now());
      stopped := true;
      StopObserver();
      retired := retired + Retire(slots);
      slots := [];
    }
  }
}
