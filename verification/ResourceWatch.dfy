/**
 The watch scope of src/lib/resource-watch.ts as a state machine: one function per JavaScript
 callback, each of which runs to its end before another one starts. `ResourceScopeObserver`
 (ResourceWatchObserver.dfy) is the imperative form of these functions; the lemmas about every
 run are in ResourceWatchProofs.dfy.

 A state also records what the host was asked to do (channels opened and closed, streams
 stopped, reloads begun, states published). The identity of a phase object is the number of the
 channel it was made for: `start` opens a new channel for every phase it makes.
 */
module ResourceWatch {
  import opened Wrappers

  datatype WatchKey = WatchKey(
    kind: string,
    apiVersion: Option<string>,
    plural: Option<string>,
    namespace: Option<string>)

  type StreamId = string

  datatype StreamStatus = Connected | Reconnecting | Forbidden

  /** A stream message. `Other` is any type the handler has no branch for. */
  datatype Message =
    | Status(status: StreamStatus, message: string)
    | Error(message: string)
    | Stopped
    | ResourceChanged
    | Other

  datatype Phase =
    | Idle
    | Opening(channel: nat)
    | Running(channel: nat, id: StreamId)
    | Closed

  datatype Watch = Watch(
    key: WatchKey,
    phase: Phase,
    connected: bool,
    error: Option<string>,
    permissionWarning: Option<string>)

  /** The promise `startResourceWatch` returned for a channel. */
  datatype Call = Pending | Resolved(id: StreamId) | Rejected

  /** What happened to one opened channel: its watch, its start call, how often it was closed,
      and the last status, error or stopped message its handler acted on. */
  datatype Channel = Channel(watch: nat, call: Call, closes: nat, report: Option<Message>)

  /** A `handlers.reload` call that has not settled; `keys` is None for the whole scope. */
  datatype Reload = Reload(scope: nat, keys: Option<seq<WatchKey>>)

  datatype Outcome = Loaded(warnings: seq<string>) | Failed(message: string)

  /** The order of interruptions, reloads and changes of the key set. `connected` is whether every permitted watch
      was; `current` is whether the reload had been begun for the key set it settles under. */
  datatype Mark =
    | Interrupted
    | Began(keys: Option<seq<WatchKey>>, connected: bool)
    | Ended(current: bool, outcome: Outcome)
    | KeysChanged

  datatype ScopeStatus = Connecting | AllConnected | Partial | Polling | Recovering

  datatype Published = Published(
    status: ScopeStatus,
    catchingUp: bool,
    error: Option<string>,
    reloadError: Option<string>,
    warnings: seq<string>)

  datatype State = State(
    disposed: bool,
    timer: nat,                      // handle of the last recovery timer
    reloading: bool,
    needsCatchUp: bool,
    reloadError: Option<string>,
    reloadWarnings: seq<string>,
    scopeGeneration: nat,
    watches: seq<nat>,               // indices into registrations
    registrations: seq<Watch>,       // every watch ever registered
    channels: seq<Channel>,
    stops: multiset<StreamId>,       // stop_stream calls
    reloads: seq<Reload>,            // reload calls in flight
    armed: set<nat>,                 // recovery timers the host holds
    trace: seq<Mark>,
    errorScope: nat,                 // generation of the reload that set reloadError
    warningsScope: nat,              // generation of the reload that set reloadWarnings
    changes: seq<WatchKey>,          // onChange calls
    published: seq<Published>)       // onState calls

  function Text(o: Option<string>): string { o.GetOr("") }

  /** watchKeySignature. */
  function Signature(key: WatchKey): string {
    key.kind + ":" + Text(key.apiVersion) + ":" + Text(key.plural) + ":" + Text(key.namespace)
  }

  predicate Denied(watch: Watch) { HasText(watch.permissionWarning) }

  predicate Holds(phase: Phase, channel: nat) {
    (phase.Opening? || phase.Running?) && phase.channel == channel
  }

  predicate Within(ws: seq<nat>, count: nat) {
    forall i :: 0 <= i < |ws| ==> ws[i] < count
  }

  /** Indices stay inside the tables. */
  ghost predicate Shaped(s: State) {
    && Within(s.watches, |s.registrations|)
    && (forall c :: 0 <= c < |s.channels| ==> s.channels[c].watch < |s.registrations|)
  }

  predicate Ready(watch: Watch) { Denied(watch) || watch.connected }

  /** Every watch that is not denied is connected. */
  predicate EveryPermittedConnected(s: State)
    requires Shaped(s)
  {
    forall i :: 0 <= i < |s.watches| ==> Ready(s.registrations[s.watches[i]])
  }

  predicate EveryDenied(s: State)
    requires Shaped(s)
  {
    forall i :: 0 <= i < |s.watches| ==> Denied(s.registrations[s.watches[i]])
  }

  function PermissionWarnings(regs: seq<Watch>, ws: seq<nat>): seq<string>
    requires Within(ws, |regs|)
  {
    if ws == [] then []
    else (if Denied(regs[ws[0]]) then [regs[ws[0]].permissionWarning.value] else []) + PermissionWarnings(regs, ws[1..])
  }

  function DeniedKeys(regs: seq<Watch>, ws: seq<nat>): seq<WatchKey>
    requires Within(ws, |regs|)
  {
    if ws == [] then []
    else (if Denied(regs[ws[0]]) then [regs[ws[0]].key] else []) + DeniedKeys(regs, ws[1..])
  }

  /** The first error a watch shows, if any. */
  function FirstError(regs: seq<Watch>, ws: seq<nat>): Option<string>
    requires Within(ws, |regs|)
  {
    if ws == [] then None
    else if HasText(regs[ws[0]].error) then regs[ws[0]].error
    else FirstError(regs, ws[1..])
  }

  function Report(s: State, readError: Option<string>): Published
    requires Shaped(s)
  {
    var warnings := Distinct(PermissionWarnings(s.registrations, s.watches) + s.reloadWarnings);
    var status :=
      if !EveryPermittedConnected(s) then Recovering
      else if EveryDenied(s) then Polling
      else if warnings != [] then Partial else AllConnected;
    Published(status, s.needsCatchUp || s.reloading, FirstError(s.registrations, s.watches),
              s.reloadError.OrElse(readError), warnings)
  }

  /** The part of refresh() before its await. */
  function Refresh(s: State, keys: Option<seq<WatchKey>>): (r: State)
    requires Shaped(s)
  {
    if s.disposed || s.reloading then s
    else s.(reloading := true,
            reloads := s.reloads + [Reload(s.scopeGeneration, keys)],
            trace := s.trace + [Began(keys, EveryPermittedConnected(s))])
  }

  function Publish(s: State, readError: Option<string>): (r: State)
    requires Shaped(s)
  {
    if s.disposed then s
    else
      var s1 := s.(published := s.published + [Report(s, readError)]);
      if EveryPermittedConnected(s) && s.needsCatchUp && !s.reloading
      then Refresh(s1.(needsCatchUp := false), None)
      else s1
  }

  /** start() up to the call of startResourceWatch. */
  function Start(s: State, w: nat): (r: State)
    requires Shaped(s) && w < |s.registrations|
    ensures Shaped(r) && |r.registrations| == |s.registrations| && r.watches == s.watches
  {
    var watch := s.registrations[w];
    if s.disposed || !watch.phase.Idle? || Denied(watch) then s
    else s.(registrations := s.registrations[w := watch.(phase := Opening(|s.channels|))],
            channels := s.channels + [Channel(w, Pending, 0, None)])
  }

  function StartAll(s: State, ws: seq<nat>): (r: State)
    requires Shaped(s) && Within(ws, |s.registrations|)
    ensures Shaped(r) && |r.registrations| == |s.registrations| && r.watches == s.watches
  {
    if ws == [] then s else Start(StartAll(s, ws[..|ws| - 1]), ws[|ws| - 1])
  }

  function CloseChannel(s: State, c: nat): (r: State)
    requires c < |s.channels|
  {
    s.(channels := s.channels[c := s.channels[c].(closes := s.channels[c].closes + 1)])
  }

  /** close(watch) of update and stop. */
  function Close(s: State, w: nat): (r: State)
    requires Shaped(s) && w < |s.registrations|
    requires ChannelOf(s.registrations[w].phase) <= |s.channels|
    ensures Shaped(r) && |r.registrations| == |s.registrations| && r.watches == s.watches
    ensures |r.channels| == |s.channels|
  {
    var previous := s.registrations[w].phase;
    var s1 := s.(registrations := s.registrations[w := s.registrations[w].(phase := Closed)]);
    match previous
    case Opening(c) => CloseChannel(s1, c)
    case Running(c, id) => CloseChannel(s1, c).(stops := s1.stops + multiset{id})
    case _ => s1
  }

  /** One more than the channel a phase holds, or 0. */
  function ChannelOf(phase: Phase): nat {
    if phase.Opening? || phase.Running? then phase.channel + 1 else 0
  }

  /** Every phase holds a channel that was opened. */
  ghost predicate PhasesOpened(s: State) {
    forall w :: 0 <= w < |s.registrations| ==> ChannelOf(s.registrations[w].phase) <= |s.channels|
  }

  function Register(key: WatchKey): Watch { Watch(key, Idle, false, None, None) }

  function RegisterAll(keys: seq<WatchKey>): (r: seq<Watch>)
    ensures |r| == |keys|
    ensures forall i :: 0 <= i < |keys| ==> r[i] == Register(keys[i])
  {
    seq(|keys|, i requires 0 <= i < |keys| => Register(keys[i]))
  }

  function Indices(from: nat, count: nat): (r: seq<nat>)
    ensures |r| == count
    ensures forall i :: 0 <= i < count ==> r[i] == from + i
  {
    seq(count, i requires 0 <= i < count => from + i)
  }

  const CONNECTING := Published(Connecting, false, None, None, [])

  /** observeResourceScope up to its return. */
  function Init(keys: seq<WatchKey>): (s: State)
  {
    var blank := State(false, 0, false, false, None, [], 0,
                       Indices(0, |keys|), RegisterAll(keys), [], multiset{}, [], {}, [], 0, 0, [], [CONNECTING]);
    Arm(StartAll(blank, blank.watches))
  }

  /** A new recovery timer is armed; the scope remembers its handle. */
  function Arm(s: State): State {
    s.(timer := s.timer + 1, armed := s.armed + {s.timer + 1})
  }

  /** How the handler of a channel updates its watch for one message. */
  function Heard(watch: Watch, msg: Message): Watch {
    match msg
    case Status(status, message) =>
      var permissionWarning := if status == Forbidden then Some(message) else None;
      var connected := status == Connected;
      watch.(permissionWarning := permissionWarning, connected := connected,
             error := if connected || HasText(permissionWarning) then None else watch.error)
    case Error(message) => watch.(connected := false, error := Some(message))
    case Stopped => watch.(phase := Idle, connected := false)
    case _ => watch
  }

  /** A message after which the rows the view shows may be stale: an error, the end of the
      stream, or a status that is neither connected nor a permission warning. */
  predicate Interrupts(msg: Message) {
    || msg.Error? || msg.Stopped?
    || (msg.Status? && msg.status != Connected && !(msg.status == Forbidden && msg.message != ""))
  }

  /** What the handler of channel `c` does to its watch and to the scope for one message. */
  function Noticed(s: State, c: nat, msg: Message): (r: State)
    requires Shaped(s) && c < |s.channels|
    ensures Shaped(r) && |r.registrations| == |s.registrations| && r.watches == s.watches && r.channels == s.channels
  {
    var w := s.channels[c].watch;
    var watch := Heard(s.registrations[w], msg);
    var s1 := s.(registrations := s.registrations[w := watch]);
    if Interrupts(msg) then s1.(needsCatchUp := true, trace := s1.trace + [Interrupted])
    else if msg.ResourceChanged? then s1.(changes := s1.changes + [watch.key])
    else s1
  }

  /** The handler `start` gives to channel `c`, up to its publish(). */
  function Receive(s: State, c: nat, msg: Message): (r: State)
    requires Shaped(s) && c < |s.channels|
    ensures Shaped(r) && |r.registrations| == |s.registrations| && r.watches == s.watches
  {
    var s1 := Noticed(s, c, msg);
    var s2 :=
      if msg.Status? || msg.Error? || msg.Stopped?
      then s1.(channels := s1.channels[c := s1.channels[c].(report := Some(msg))])
      else s1;
    if msg.Stopped? then CloseChannel(s2, c) else s2
  }

  predicate Listening(s: State, c: nat)
    requires Shaped(s) && c < |s.channels|
  {
    !s.disposed && Holds(s.registrations[s.channels[c].watch].phase, c)
  }

  function OnMessage(s: State, c: nat, msg: Message, readError: Option<string>): State
    requires Shaped(s) && c < |s.channels|
  {
    if Listening(s, c) then Publish(Receive(s, c, msg), readError) else s
  }

  function Answer(s: State, c: nat, call: Call): State
    requires c < |s.channels|
  {
    s.(channels := s.channels[c := s.channels[c].(call := call)])
  }

  /** The `.then` of startResourceWatch. */
  function OnStarted(s: State, c: nat, id: StreamId): State
    requires Shaped(s) && c < |s.channels|
  {
    var w := s.channels[c].watch;
    var s1 := Answer(s, c, Resolved(id));
    if s.disposed || s.registrations[w].phase != Opening(c) then s1.(stops := s1.stops + multiset{id})
    else s1.(registrations := s.registrations[w := s.registrations[w].(phase := Running(c, id))])
  }

  /** The `.catch` of startResourceWatch. */
  function OnRefused(s: State, c: nat, message: string, readError: Option<string>): State
    requires Shaped(s) && c < |s.channels|
  {
    var w := s.channels[c].watch;
    var s1 := Answer(s, c, Rejected);
    if s.registrations[w].phase != Opening(c) then s1
    else
      var watch := s.registrations[w].(phase := Idle, error := Some(message), connected := false);
      Publish(CloseChannel(s1, c).(registrations := s.registrations[w := watch],
                                   needsCatchUp := true, trace := s.trace + [Interrupted]), readError)
  }

  /** A watch that is neither connected nor denied makes the scope catch up. */
  function Woken(s: State): (r: State)
    requires Shaped(s)
    ensures Shaped(r)
  {
    if EveryPermittedConnected(s) then s else s.(needsCatchUp := true)
  }

  /** The reload a tick begins: of the denied keys alone when nothing else calls for one. */
  function Recovered(s: State, readError: Option<string>): (r: State)
    requires Shaped(s)
  {
    var denied := DeniedKeys(s.registrations, s.watches);
    if s.needsCatchUp || HasText(s.reloadError) || HasText(readError) || denied != []
    then Refresh(s, if !s.needsCatchUp && !HasText(readError) && denied != [] then Some(denied) else None)
    else s
  }

  /** tick(), called by the recovery timer `handle`. */
  function OnTick(s: State, handle: nat, readError: Option<string>): State
    requires Shaped(s)
  {
    var s0 := s.(armed := s.armed - {handle});
    if s.disposed then s0 else Arm(Recovered(Woken(StartAll(s0, s0.watches)), readError))
  }

  /** The result of the reload that settles, taken over only if the key set is still the one it was begun for. */
  function TakenIn(s: State, reload: Reload, outcome: Outcome): (r: State)
    requires Shaped(s) && s.reloads != [] && s.reloads[0] == reload
    ensures Shaped(r)
  {
    var current := reload.scope == s.scopeGeneration;
    var s1 := s.(reloads := s.reloads[1..], reloading := false, trace := s.trace + [Ended(current, outcome)]);
    if !current then s1
    else match outcome
         case Loaded(warnings) => s1.(reloadWarnings := warnings, warningsScope := reload.scope, reloadError := None)
         case Failed(message) => s1.(reloadError := Some(message), errorScope := reload.scope)
  }

  /** The rest of refresh() once the reload `reload` settles. */
  function OnReloaded(s: State, reload: Reload, outcome: Outcome, readError: Option<string>): State
    requires Shaped(s) && s.reloads != [] && s.reloads[0] == reload
  {
    Publish(TakenIn(s, reload, outcome), readError)
  }

  /** The wanted keys by signature: one for each signature, the last given, in the order the signatures first came. */
  function Wanted(keys: seq<WatchKey>): (r: seq<WatchKey>)
  {
    if keys == [] then [] else Put(Wanted(keys[..|keys| - 1]), keys[|keys| - 1])
  }

  /** Map.set. */
  function Put(m: seq<WatchKey>, key: WatchKey): (r: seq<WatchKey>)
  {
    if m == [] then [key]
    else if Signature(m[0]) == Signature(key) then [key] + m[1..]
    else [m[0]] + Put(m[1..], key)
  }

  predicate Has(m: seq<WatchKey>, signature: string) {
    exists i :: 0 <= i < |m| && Signature(m[i]) == signature
  }

  /** Map.delete. */
  function Without(m: seq<WatchKey>, signature: string): seq<WatchKey> {
    if m == [] then []
    else if Signature(m[0]) == signature then m[1..]
    else [m[0]] + Without(m[1..], signature)
  }

  /** update's loop over the old watches: which are kept, and which keys are still wanted. */
  datatype Sweep = Sweep(state: State, wanted: seq<WatchKey>, kept: seq<nat>)

  /** One turn of that loop: a wanted watch is kept and its key taken off, any other is closed. */
  function SweepOne(before: Sweep, w: nat): (r: Sweep)
    requires Shaped(before.state) && PhasesOpened(before.state) && w < |before.state.registrations|
    requires Within(before.kept, |before.state.registrations|)
    ensures Shaped(r.state) && PhasesOpened(r.state)
    ensures |r.state.registrations| == |before.state.registrations| && r.state.watches == before.state.watches
    ensures |r.state.channels| == |before.state.channels| && Within(r.kept, |r.state.registrations|)
  {
    var signature := Signature(before.state.registrations[w].key);
    if Has(before.wanted, signature)
    then before.(wanted := Without(before.wanted, signature), kept := before.kept + [w])
    else before.(state := Close(before.state, w))
  }

  function SweepAll(s: State, wanted: seq<WatchKey>, ws: seq<nat>): (r: Sweep)
    requires Shaped(s) && PhasesOpened(s) && Within(ws, |s.registrations|)
    ensures Shaped(r.state) && PhasesOpened(r.state)
    ensures |r.state.registrations| == |s.registrations| && r.state.watches == s.watches
    ensures |r.state.channels| == |s.channels| && Within(r.kept, |s.registrations|)
  {
    if ws == [] then Sweep(s, wanted, []) else SweepOne(SweepAll(s, wanted, ws[..|ws| - 1]), ws[|ws| - 1])
  }

  /** The kept watches and one registration for every key still wanted, in a new scope if the keys changed. */
  function Rescoped(swept: Sweep): (r: State)
    requires Shaped(swept.state) && Within(swept.kept, |swept.state.registrations|)
    ensures Shaped(r) && |r.registrations| == |swept.state.registrations| + |swept.wanted|
  {
    var s := swept.state;
    var s1 :=
      if |swept.wanted| > 0 || |swept.kept| < |s.watches|
      then s.(scopeGeneration := s.scopeGeneration + 1, reloadWarnings := [], reloadError := None, trace := s.trace + [KeysChanged])
      else s;
    s1.(registrations := s1.registrations + RegisterAll(swept.wanted),
        watches := swept.kept + Indices(|s.registrations|, |swept.wanted|))
  }

  /** What update publishes; `kept` are the watches it kept. */
  function Announce(s: State, kept: seq<nat>, onlyKept: bool, readError: Option<string>): State
    requires Shaped(s) && Within(kept, |s.registrations|)
  {
    if onlyKept then Publish(s, readError)
    else s.(published := s.published + [Published(Connecting, s.needsCatchUp || s.reloading, None, s.reloadError,
                                                  Distinct(PermissionWarnings(s.registrations, kept)))])
  }

  /** The part of update() after its loop over the old watches. */
  function Rescope(swept: Sweep, readError: Option<string>): State
    requires Shaped(swept.state) && Within(swept.kept, |swept.state.registrations|)
  {
    var added := Indices(|swept.state.registrations|, |swept.wanted|);
    Announce(StartAll(Rescoped(swept), added), swept.kept, swept.wanted == [], readError)
  }

  function OnUpdate(s: State, keys: seq<WatchKey>, readError: Option<string>): State
    requires Shaped(s) && PhasesOpened(s)
  {
    if s.disposed then s
    else Rescope(SweepAll(s, Wanted(keys), s.watches), readError)
  }

  function CloseAll(s: State, ws: seq<nat>): (r: State)
    requires Shaped(s) && PhasesOpened(s) && Within(ws, |s.registrations|)
    ensures Shaped(r) && PhasesOpened(r)
    ensures |r.registrations| == |s.registrations| && r.watches == s.watches
    ensures |r.channels| == |s.channels|
  {
    if ws == [] then s else Close(CloseAll(s, ws[..|ws| - 1]), ws[|ws| - 1])
  }

  /** stop(). */
  function OnStop(s: State): State
    requires Shaped(s) && PhasesOpened(s)
  {
    CloseAll(s.(disposed := true, armed := s.armed - {s.timer}), s.watches)
  }

  /** checkReads(). */
  function OnCheckReads(s: State, readError: Option<string>): State
    requires Shaped(s)
  {
    Publish(s, readError)
  }

  /** What the environment can do next. */
  datatype Event =
    | MessageArrives(channel: nat, msg: Message)
    | StartResolves(channel: nat, id: StreamId)
    | StartRejects(channel: nat, message: string)
    | TimerFires(handle: nat)
    | ReloadSettles(outcome: Outcome)
    | UpdateCalled(keys: seq<WatchKey>)
    | StopCalled
    | CheckReadsCalled

  /** A promise settles once, a timer fires only while it is armed, and the backend never
      returns the same stream id twice. A message may arrive on any channel at any time. */
  ghost predicate Enabled(s: State, e: Event) {
    match e
    case MessageArrives(c, _) => c < |s.channels|
    case StartResolves(c, id) =>
      && c < |s.channels| && s.channels[c].call.Pending?
      && (forall d :: 0 <= d < |s.channels| ==> s.channels[d].call != Resolved(id))
    case StartRejects(c, _) => c < |s.channels| && s.channels[c].call.Pending?
    case TimerFires(h) => h in s.armed
    case ReloadSettles(_) => s.reloads != []
    case _ => true
  }

  ghost function Step(s: State, e: Event, readError: Option<string>): State
    requires Shaped(s) && PhasesOpened(s) && Enabled(s, e)
  {
    match e
    case MessageArrives(c, msg) => OnMessage(s, c, msg, readError)
    case StartResolves(c, id) => OnStarted(s, c, id)
    case StartRejects(c, message) => OnRefused(s, c, message, readError)
    case TimerFires(h) => OnTick(s, h, readError)
    case ReloadSettles(outcome) => OnReloaded(s, s.reloads[0], outcome, readError)
    case UpdateCalled(keys) => OnUpdate(s, keys, readError)
    case StopCalled => OnStop(s)
    case CheckReadsCalled => OnCheckReads(s, readError)
  }
}
