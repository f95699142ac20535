/**
 observeResourceScope as an object: its closure variables are fields, each callback is a method,
 and each method does to the fields what the function of the same step says
 (ResourceWatch.dfy), so every lemma of ResourceWatchProofs.dfy holds of the object.
 */
module ResourceWatchObserver {
  import opened Wrappers
  import opened ResourceWatch
  import opened ResourceWatchProofs
  import Turns = ResourceWatchTurns

  class WatchRegistration {
    var key: WatchKey
    var phase: Phase
    var connected: bool
    var error: Option<string>
    var permissionWarning: Option<string>

    constructor (key: WatchKey)
      ensures Value() == Register(key)
    {
      this.key := key;
      phase := Idle;
      connected := false;
      error := None;
      permissionWarning := None;
    }

    ghost function Value(): Watch
      reads this
    {
      Watch(key, phase, connected, error, permissionWarning)
    }
  }

  ghost function Values(rs: seq<WatchRegistration>): (v: seq<Watch>)
    reads rs
    ensures |v| == |rs| && forall i :: 0 <= i < |rs| ==> v[i] == rs[i].Value()
  {
    seq(|rs|, i requires 0 <= i < |rs| reads rs => rs[i].Value())
  }

  lemma ValuesOfMore(before: seq<WatchRegistration>, added: seq<WatchRegistration>, keys: seq<WatchKey>)
    requires |added| == |keys| && forall i :: 0 <= i < |keys| ==> added[i].Value() == Register(keys[i])
    ensures Values(before + added) == Values(before) + RegisterAll(keys)
  {
  }

  lemma SweepNext(s: State, wanted: seq<WatchKey>, ws: seq<nat>, i: nat)
    requires Shaped(s) && PhasesOpened(s) && Within(ws, |s.registrations|) && i < |ws|
    ensures SweepAll(s, wanted, ws[..i + 1]) == SweepOne(SweepAll(s, wanted, ws[..i]), ws[i])
  {
    assert ws[..i + 1][..i] == ws[..i];
  }

  lemma CloseNext(s: State, ws: seq<nat>, i: nat)
    requires Shaped(s) && PhasesOpened(s) && Within(ws, |s.registrations|) && i < |ws|
    ensures CloseAll(s, ws[..i + 1]) == Close(CloseAll(s, ws[..i]), ws[i])
  {
    assert ws[..i + 1][..i] == ws[..i];
  }

  lemma StartNext(s: State, ws: seq<nat>, i: nat)
    requires Shaped(s) && Within(ws, |s.registrations|) && i < |ws|
    ensures StartAll(s, ws[..i + 1]) == Start(StartAll(s, ws[..i]), ws[i])
  {
    assert ws[..i + 1][..i] == ws[..i];
  }

  class ResourceScopeObserver {
    var disposed: bool
    var timer: nat
    var reloading: bool
    var needsCatchUp: bool
    var reloadError: Option<string>
    var reloadWarnings: seq<string>
    var scopeGeneration: nat
    var watches: seq<WatchRegistration>
    var nextChannel: nat                            // channels opened so far

    // What the host was asked to do, and every watch ever registered.
    ghost var registrations: seq<WatchRegistration>
    ghost var indices: seq<nat>                // where each of watches is in registrations
    ghost var channels: seq<Channel>
    ghost var stops: multiset<StreamId>
    ghost var reloads: seq<Reload>
    ghost var armed: set<nat>
    ghost var trace: seq<Mark>
    ghost var errorScope: nat
    ghost var warningsScope: nat
    ghost var changes: seq<WatchKey>
    ghost var published: seq<Published>

    ghost function State(): State
      reads this, registrations
    {
      ResourceWatch.State.State(
        disposed, timer, reloading, needsCatchUp, reloadError, reloadWarnings, scopeGeneration,
        indices, Values(registrations), channels, stops, reloads, armed, trace, errorScope, warningsScope,
        changes, published)
    }

    /** The object's own structure. */
    ghost predicate Linked()
      reads this, registrations
    {
      && |indices| == |watches| && Within(indices, |registrations|)
      && (forall i :: 0 <= i < |watches| ==> registrations[indices[i]] == watches[i])
      && (forall i, j :: 0 <= i < j < |registrations| ==> registrations[i] != registrations[j])
      && nextChannel == |channels|
      && Shaped(State()) && PhasesOpened(State())
    }

    ghost predicate Valid()
      reads this, registrations
    {
      Linked() && Inv(State())
    }

    constructor (keys: seq<WatchKey>)
      ensures Valid() && fresh(registrations)
      ensures State() == Init(keys)
    {
      disposed, timer, reloading, needsCatchUp := false, 0, false, false;
      reloadError, reloadWarnings, scopeGeneration := None, [], 0;
      watches, nextChannel := [], 0;
      registrations, indices, channels, stops, reloads, armed, trace := [], [], [], multiset{}, [], {}, [];
      errorScope, warningsScope, changes, published := 0, 0, [], [CONNECTING];
      new;
      BeginWatching(keys);
      InitInv(keys);
    }

    method BeginWatching(keys: seq<WatchKey>)
      requires Linked() && registrations == [] && watches == []
      requires State() == ResourceWatch.State.State(false, 0, false, false, None, [], 0, [], [], [], multiset{}, [], {}, [], 0, 0, [], [CONNECTING])
      modifies this
      ensures Linked() && fresh(registrations) && State() == Init(keys)
    {
      StartWatching(keys);
      SetTimer();
    }

    /** Registers a watch for every key and starts each once. */
    method StartWatching(keys: seq<WatchKey>)
      requires Linked() && registrations == [] && watches == []
      modifies this
      ensures Linked() && fresh(registrations)
      ensures State() == StartAll(old(State()).(watches := Indices(0, |keys|), registrations := RegisterAll(keys)), Indices(0, |keys|))
    {
      RegisterFirst(keys);
      StartEach(watches, indices);
    }

    /** The first watches, in the order of their keys. */
    method RegisterFirst(keys: seq<WatchKey>)
      requires Linked() && registrations == [] && watches == []
      modifies this`registrations, this`watches, this`indices
      ensures Linked() && fresh(registrations) && Places(watches, indices) && indices == Indices(0, |keys|)
      ensures State() == old(State()).(watches := Indices(0, |keys|), registrations := RegisterAll(keys))
    {
      ghost var s := State();
      assert s.registrations == [];
      var added := RegisterWatches(keys);
      ghost var t := State();
      assert t.registrations == RegisterAll(keys);
      assert registrations == added;
      assert Places(added, Indices(0, |keys|));
      SetWatches(added, Indices(0, |keys|));
      assert State() == t.(watches := Indices(0, |keys|));
    }

    /** New watches for the keys, idle and known to the scope's history. */
    method RegisterWatches(keys: seq<WatchKey>) returns (added: seq<WatchRegistration>)
      requires Linked()
      modifies this`registrations
      ensures Linked() && |added| == |keys| && fresh(added)
      ensures registrations == old(registrations) + added
      ensures forall i :: 0 <= i < |keys| ==> added[i].Value() == Register(keys[i])
      ensures State() == old(State()).(registrations := old(State()).registrations + RegisterAll(keys))
    {
      added := [];
      while |added| < |keys|
        invariant |added| <= |keys| && fresh(added) && registrations == old(registrations)
        invariant forall i :: 0 <= i < |added| ==> added[i].Value() == Register(keys[i])
        invariant forall i, j :: 0 <= i < j < |added| ==> added[i] != added[j]
      {
        var watch := new WatchRegistration(keys[|added|]);
        added := added + [watch];
      }
      ghost var before := registrations;
      registrations := registrations + added;
      ValuesOfMore(before, added, keys);
    }

    method SetWatches(ws: seq<WatchRegistration>, ghost ids: seq<nat>)
      requires Linked() && Places(ws, ids)
      modifies this`watches, this`indices
      ensures Linked() && watches == ws && indices == ids
      ensures State() == old(State()).(watches := ids)
    {
      watches, indices := ws, ids;
    }

    method SetTimer()
      requires Linked()
      modifies this`timer, this`armed
      ensures Linked() && State() == Arm(old(State()))
    {
      timer := timer + 1;
      armed := armed + {timer};
    }

    /** Assigns to a watch's phase a phase of an opened channel. */
    method SetPhase(watch: WatchRegistration, ghost w: nat, phase: Phase)
      requires Linked() && w < |registrations| && registrations[w] == watch
      requires ChannelOf(phase) <= |channels|
      modifies watch`phase
      ensures Linked() && watch.phase == phase
      ensures State() == old(State()).(registrations := old(Values(registrations))[w := old(watch.Value()).(phase := phase)])
    {
      watch.phase := phase;
      ghost var before := old(Values(registrations));
      forall i | 0 <= i < |registrations| && i != w ensures Values(registrations)[i] == before[i] {
        assert registrations[i] != watch;
      }
      assert Values(registrations) == before[w := watch.Value()];
    }

    method OpenChannel(ghost w: nat) returns (channel: nat)
      requires Linked() && w < |registrations|
      modifies this`nextChannel, this`channels
      ensures Linked() && channel == old(|channels|)
      ensures State() == old(State()).(channels := old(channels) + [Channel(w, Pending, 0, None)])
    {
      channel := nextChannel;
      nextChannel := nextChannel + 1;
      channels := channels + [Channel(w, Pending, 0, None)];
    }

    method StartWatch(watch: WatchRegistration, ghost w: nat)
      requires Linked() && w < |registrations| && registrations[w] == watch
      modifies this`nextChannel, this`channels, watch`phase
      ensures Linked() && State() == Start(old(State()), w)
    {
      var denied := watch.permissionWarning.Some? && watch.permissionWarning.value != "";
      if disposed || watch.phase != Idle || denied {
        return;
      }
      var channel := OpenChannel(w);
      SetPhase(watch, w, Opening(channel));
    }

    /** Starts the watches in order; those that cannot start are left as they are. */
    method StartEach(ws: seq<WatchRegistration>, ghost ids: seq<nat>)
      requires Linked() && Places(ws, ids)
      modifies this`nextChannel, this`channels, registrations
      ensures Linked() && State() == StartAll(old(State()), ids)
    {
      var i := 0;
      while i < |ws|
        invariant 0 <= i <= |ws| && Linked()
        invariant State() == StartAll(old(State()), ids[..i])
      {
        StartNext(old(State()), ids, i);
        StartWatch(ws[i], ids[i]);
        i := i + 1;
      }
      assert ids[..i] == ids;
    }

    method CloseStreamChannel(channel: nat)
      requires Linked() && channel < |channels|
      modifies this`channels
      ensures Linked() && State() == CloseChannel(old(State()), channel)
    {
      channels := channels[channel := channels[channel].(closes := channels[channel].closes + 1)];
    }

    /** stop_stream. */
    method StopStream(id: StreamId)
      requires Linked()
      modifies this`stops
      ensures Linked() && State() == old(State()).(stops := old(stops) + multiset{id})
    {
      stops := stops + multiset{id};
    }

    method CloseWatch(watch: WatchRegistration, ghost w: nat)
      requires Linked() && w < |registrations| && registrations[w] == watch
      modifies this`channels, this`stops, watch`phase
      ensures Linked() && State() == Close(old(State()), w)
    {
      var previous := watch.phase;
      assert ChannelOf(State().registrations[w].phase) <= |channels|;
      SetPhase(watch, w, Closed);
      LetGo(previous);
    }

    method LetGo(previous: Phase)
      requires Linked() && ChannelOf(previous) <= |channels|
      modifies this`channels, this`stops
      ensures Linked()
      ensures var s := old(State());
              State() == match previous
                         case Opening(c) => CloseChannel(s, c)
                         case Running(c, id) => CloseChannel(s, c).(stops := s.stops + multiset{id})
                         case _ => s
    {
      if previous.Opening? || previous.Running? {
        CloseStreamChannel(previous.channel);
      }
      if previous.Running? {
        StopStream(previous.id);
      }
    }

    /** Whether every permitted watch is connected, and whether any is permitted at all. */
    method ScanPermitted() returns (connected: bool, available: bool)
      requires Linked()
      ensures connected <==> EveryPermittedConnected(State())
      ensures !available <==> EveryDenied(State())
    {
      ghost var regs := Values(registrations);
      connected, available := true, false;
      var i := 0;
      while i < |watches|
        invariant 0 <= i <= |watches|
        invariant connected <==> forall j :: 0 <= j < i ==> Ready(regs[indices[j]])
        invariant !available <==> forall j :: 0 <= j < i ==> Denied(regs[indices[j]])
      {
        assert regs[indices[i]] == watches[i].Value();
        if !HasText(watches[i].permissionWarning) {
          available := true;
          connected := connected && watches[i].connected;
        }
        i := i + 1;
      }
    }

    /** The first error a watch shows, if any. */
    method FindError() returns (error: Option<string>)
      requires Linked()
      ensures error == FirstError(State().registrations, indices)
    {
      ghost var regs := Values(registrations);
      var i := 0;
      while i < |watches|
        invariant 0 <= i <= |watches|
        invariant FirstError(regs, indices[i..]) == FirstError(regs, indices)
      {
        assert regs[indices[i]] == watches[i].Value();
        assert indices[i..][1..] == indices[i + 1..];
        if HasText(watches[i].error) {
          return watches[i].error;
        }
        i := i + 1;
      }
      assert indices[i..] == [];
      return None;
    }

    /** The state publish() hands to handlers.onState. */
    method BuildReport(readError: Option<string>) returns (report: Published)
      requires Linked()
      ensures report == Report(State(), readError)
      ensures report.status != Recovering <==> EveryPermittedConnected(State())
    {
      var connected, available := ScanPermitted();
      var error := FindError();
      var warnings := CollectWarnings(watches, indices);
      warnings := Distinct(warnings + reloadWarnings);
      var status :=
        if !connected then Recovering else if !available then Polling
        else if warnings != [] then Partial else AllConnected;
      report := Published(status, needsCatchUp || reloading, error,
                          if reloadError.Some? then reloadError else readError, warnings);
    }

    method ClearCatchUp()
      requires Linked()
      modifies this`needsCatchUp
      ensures Linked() && State() == old(State()).(needsCatchUp := false)
    {
      needsCatchUp := false;
    }

    /** refresh() up to its await. It keeps at most one reload in flight. */
    method BeginRefresh(keys: Option<seq<WatchKey>>)
      requires Linked()
      modifies this`reloading, this`reloads, this`trace
      ensures Linked() && State() == Refresh(old(State()), keys)
      ensures !disposed ==> reloading
      ensures |old(reloads)| == (if old(reloading) then 1 else 0) ==> |reloads| == (if reloading then 1 else 0)
    {
      if disposed || reloading {
        return;
      }
      trace := trace + [Began(keys, EveryPermittedConnected(State()))];
      reloading := true;
      reloads := reloads + [Reload(scopeGeneration, keys)];
    }

    /** handlers.onState. */
    method OnState(report: Published)
      requires Linked()
      modifies this`published
      ensures Linked() && State() == old(State()).(published := old(published) + [report])
    {
      published := published + [report];
    }

    method PublishState(readError: Option<string>)
      requires Linked()
      modifies this`needsCatchUp, this`reloading, this`reloads, this`trace, this`published
      ensures Linked() && State() == Publish(old(State()), readError)
    {
      if disposed {
        return;
      }
      var report := BuildReport(readError);
      OnState(report);
      if report.status != Recovering && needsCatchUp && !reloading {
        ClearCatchUp();
        BeginRefresh(None);
      }
    }

    /** The handler `start` gave to `channel` when it opened it for `watch`. */
    method OnChannelMessage(watch: WatchRegistration, channel: nat, msg: Message, readError: Option<string>)
      requires Valid() && channel < |channels| && registrations[channels[channel].watch] == watch
      modifies this, watch
      ensures Valid() && State() == OnMessage(old(State()), channel, msg, readError)
      ensures changes == old(changes) +
                if msg.ResourceChanged? && !old(disposed) && old(channels)[channel].closes == 0 then [old(watch.key)] else []
    {
      MessageInv(State(), channel, msg, readError);
      Turns.MessageForwards(State(), channel, msg, readError);
      if disposed || watch.phase.Closed? || watch.phase.Idle? || watch.phase.channel != channel {
        return;
      }
      Hear(watch, channel, msg);
      PublishState(readError);
    }

    method Hear(watch: WatchRegistration, channel: nat, msg: Message)
      requires Linked() && channel < |channels| && registrations[channels[channel].watch] == watch
      modifies this`needsCatchUp, this`trace, this`channels, this`changes, watch
      ensures Linked() && State() == Receive(old(State()), channel, msg)
    {
      Notice(watch, channel, msg);
      if msg.Status? || msg.Error? || msg.Stopped? {
        Record(channel, channels[channel].(report := Some(msg)));
      }
      if msg.Stopped? {
        CloseStreamChannel(channel);
      }
    }

    method Notice(watch: WatchRegistration, channel: nat, msg: Message)
      requires Linked() && channel < |channels| && registrations[channels[channel].watch] == watch
      modifies this`needsCatchUp, this`trace, this`changes, watch
      ensures Linked() && State() == Noticed(old(State()), channel, msg)
    {
      ghost var w := channels[channel].watch;
      ghost var before := Values(registrations);
      assert before[w := before[w]] == before;
      if msg.Status? {
        HearStatus(watch, w, msg.status, msg.message);
        if !watch.connected && !HasText(watch.permissionWarning) {
          Interrupt();
        }
      } else if msg.Error? {
        HearError(watch, w, msg.message);
        Interrupt();
      } else if msg.Stopped? {
        HearStopped(watch, w);
        Interrupt();
      } else if msg.ResourceChanged? {
        OnChange(watch.key);
      }
    }

    /** handlers.onChange. */
    method OnChange(key: WatchKey)
      requires Linked()
      modifies this`changes
      ensures Linked() && State() == old(State()).(changes := old(changes) + [key])
    {
      changes := changes + [key];
    }

    method Interrupt()
      requires Linked()
      modifies this`needsCatchUp, this`trace
      ensures Linked()
      ensures State() == old(State()).(needsCatchUp := true, trace := old(trace) + [Interrupted])
    {
      needsCatchUp := true;
      trace := trace + [Interrupted];
    }

    ghost method Record(channel: nat, entry: Channel)
      requires Linked() && channel < |channels| && entry.watch == channels[channel].watch
      modifies this`channels
      ensures Linked()
      ensures State() == old(State()).(channels := old(channels)[channel := entry])
    {
      channels := channels[channel := entry];
    }

    /** Assigns the fields of one watch. */
    method SetReport(watch: WatchRegistration, ghost w: nat, phase: Phase, connected: bool,
                     error: Option<string>, permissionWarning: Option<string>)
      requires Linked() && w < |registrations| && registrations[w] == watch
      requires ChannelOf(phase) <= |channels|
      modifies watch`phase, watch`connected, watch`error, watch`permissionWarning
      ensures Linked() && watch.Value() == ResourceWatch.Watch.Watch(old(watch.key), phase, connected, error, permissionWarning)
      ensures State() == old(State()).(registrations := old(Values(registrations))[w := watch.Value()])
    {
      watch.phase := phase;
      watch.connected := connected;
      watch.error := error;
      watch.permissionWarning := permissionWarning;
      ghost var before := old(Values(registrations));
      forall i | 0 <= i < |registrations| && i != w ensures Values(registrations)[i] == before[i] {
        assert registrations[i] != watch;
      }
      assert Values(registrations) == before[w := watch.Value()];
    }

    method HearStatus(watch: WatchRegistration, ghost w: nat, status: StreamStatus, message: string)
      requires Linked() && w < |registrations| && registrations[w] == watch
      modifies watch`phase, watch`connected, watch`error, watch`permissionWarning
      ensures Linked() && watch.Value() == Heard(old(watch.Value()), Status(status, message))
      ensures State() == old(State()).(registrations := old(Values(registrations))[w := watch.Value()])
    {
      assert ChannelOf(State().registrations[w].phase) <= |channels|;
      var permissionWarning := if status == Forbidden then Some(message) else None;
      var connected := status == Connected;
      var error := if connected || HasText(permissionWarning) then None else watch.error;
      SetReport(watch, w, watch.phase, connected, error, permissionWarning);
    }

    method HearError(watch: WatchRegistration, ghost w: nat, message: string)
      requires Linked() && w < |registrations| && registrations[w] == watch
      modifies watch`phase, watch`connected, watch`error, watch`permissionWarning
      ensures Linked() && watch.Value() == Heard(old(watch.Value()), Error(message))
      ensures State() == old(State()).(registrations := old(Values(registrations))[w := watch.Value()])
    {
      assert ChannelOf(State().registrations[w].phase) <= |channels|;
      SetReport(watch, w, watch.phase, false, Some(message), watch.permissionWarning);
    }

    method HearStopped(watch: WatchRegistration, ghost w: nat)
      requires Linked() && w < |registrations| && registrations[w] == watch
      modifies watch`phase, watch`connected, watch`error, watch`permissionWarning
      ensures Linked() && watch.Value() == Heard(old(watch.Value()), Stopped)
      ensures State() == old(State()).(registrations := old(Values(registrations))[w := watch.Value()])
    {
      SetReport(watch, w, Idle, false, watch.error, watch.permissionWarning);
    }

    /** The `.then` of startResourceWatch for `watch` and `channel`. */
    method OnStartResolved(watch: WatchRegistration, channel: nat, id: StreamId)
      requires Valid() && Enabled(State(), StartResolves(channel, id))
      requires registrations[channels[channel].watch] == watch
      modifies this, watch
      ensures Valid() && State() == OnStarted(old(State()), channel, id)
      ensures if old(channels)[channel].closes == 0 then watch.phase == Running(channel, id) && stops == old(stops)
              else watch.phase == old(watch.phase) && stops == old(stops) + multiset{id}
    {
      StartedInv(State(), channel, id);
      Turns.PendingIsOpening(State(), channel);
      Record(channel, channels[channel].(call := Resolved(id)));
      if disposed || watch.phase != Opening(channel) {
        StopStream(id);
        return;
      }
      SetPhase(watch, channels[channel].watch, Running(channel, id));
    }

    /** The `.catch` of startResourceWatch for `watch` and `channel`. */
    method OnStartRejected(watch: WatchRegistration, channel: nat, message: string, readError: Option<string>)
      requires Valid() && Enabled(State(), StartRejects(channel, message))
      requires registrations[channels[channel].watch] == watch
      modifies this, watch
      ensures Valid() && State() == OnRefused(old(State()), channel, message, readError)
      ensures old(channels)[channel].closes == 0 ==>
                watch.phase == Idle && watch.error == Some(message) && !watch.connected && channels[channel].closes == 1
      ensures old(channels)[channel].closes > 0 ==> watch.Value() == old(watch.Value()) && trace == old(trace)
    {
      Turns.PendingIsOpening(State(), channel);
      Turns.RefusalLeaves(State(), channel, message, readError);
      ghost var w := channels[channel].watch;
      Reject(watch, channel, message, readError);
      assert watch.Value() == State().registrations[w];
    }

    method Reject(watch: WatchRegistration, channel: nat, message: string, readError: Option<string>)
      requires Valid() && Enabled(State(), StartRejects(channel, message))
      requires registrations[channels[channel].watch] == watch
      modifies this, watch
      ensures Valid() && State() == OnRefused(old(State()), channel, message, readError)
      ensures registrations == old(registrations)
    {
      RefusedInv(State(), channel, message, readError);
      var failed := FailStart(watch, channel, message);
      if failed {
        PublishState(readError);
      }
    }

    method FailStart(watch: WatchRegistration, channel: nat, message: string) returns (failed: bool)
      requires Linked() && channel < |channels| && registrations[channels[channel].watch] == watch
      modifies this`channels, this`needsCatchUp, this`trace
      modifies watch`phase, watch`connected, watch`error, watch`permissionWarning
      ensures Linked() && State() == Refused(old(State()), channel, message)
      ensures failed <==> old(watch.phase) == Opening(channel)
    {
      failed := watch.phase == Opening(channel);
      Record(channel, channels[channel].(call := Rejected));
      if failed {
        CloseStreamChannel(channel);
        Fall(watch, channels[channel].watch, message);
      }
    }

    /** A start that failed leaves its watch idle and the scope with something to catch up. */
    method Fall(watch: WatchRegistration, ghost w: nat, message: string)
      requires Linked() && w < |registrations| && registrations[w] == watch
      modifies this`needsCatchUp, this`trace
      modifies watch`phase, watch`connected, watch`error, watch`permissionWarning
      ensures Linked()
      ensures State() == old(State()).(
                registrations := old(Values(registrations))[w := old(watch.Value()).(phase := Idle, error := Some(message), connected := false)],
                needsCatchUp := true, trace := old(trace) + [Interrupted])
    {
      SetReport(watch, w, Idle, false, Some(message), watch.permissionWarning);
      Interrupt();
    }

    /** tick(). */
    method OnTimer(handle: nat, readError: Option<string>)
      requires Valid() && Enabled(State(), TimerFires(handle))
      modifies this, registrations
      ensures Valid() && State() == OnTick(old(State()), handle, readError)
      ensures if old(reloading) then reloads == old(reloads) else Turns.TickReload(old(State()), reloads, readError)
    {
      TickInv(State(), handle, readError);
      Turns.TickBegins(State(), handle, readError);
      Tick(handle, readError);
    }

    method Tick(handle: nat, readError: Option<string>)
      requires Linked()
      modifies this`armed, this`nextChannel, this`channels, this`needsCatchUp, this`reloading, this`reloads, this`trace, this`timer
      modifies registrations
      ensures Linked() && State() == OnTick(old(State()), handle, readError)
    {
      Disarm(handle);
      if disposed {
        return;
      }
      StartEach(watches, indices);
      RequestCatchUp();
      Recover(readError);
      SetTimer();
    }

    method Recover(readError: Option<string>)
      requires Linked()
      modifies this`reloading, this`reloads, this`trace
      ensures Linked()
      ensures State() == Recovered(old(State()), readError)
    {
      var denied := CollectDenied();
      if needsCatchUp || HasText(reloadError) || HasText(readError) || denied != [] {
        BeginRefresh(if !needsCatchUp && !HasText(readError) && denied != [] then Some(denied) else None);
      }
    }

    method Disarm(handle: nat)
      requires Linked()
      modifies this`armed
      ensures Linked() && State() == old(State()).(armed := old(armed) - {handle})
    {
      armed := armed - {handle};
    }

    /** A watch that is neither connected nor denied makes the scope catch up. */
    method RequestCatchUp()
      requires Linked()
      modifies this`needsCatchUp
      ensures Linked()
      ensures State() == Woken(old(State()))
    {
      var waiting := false;
      var i := 0;
      while i < |watches|
        invariant 0 <= i <= |watches|
        invariant !waiting <==> forall j :: 0 <= j < i ==> Ready(Values(registrations)[indices[j]])
      {
        assert Values(registrations)[indices[i]] == watches[i].Value();
        waiting := waiting || (!watches[i].connected && !HasText(watches[i].permissionWarning));
        i := i + 1;
      }
      if waiting {
        needsCatchUp := true;
      }
    }

    method CollectDenied() returns (denied: seq<WatchKey>)
      requires Linked()
      ensures denied == DeniedKeys(State().registrations, indices)
    {
      ghost var regs := Values(registrations);
      denied := [];
      var i := 0;
      while i < |watches|
        invariant 0 <= i <= |watches|
        invariant denied + DeniedKeys(regs, indices[i..]) == DeniedKeys(regs, indices)
      {
        assert regs[indices[i]] == watches[i].Value();
        assert indices[i..][1..] == indices[i + 1..];
        if HasText(watches[i].permissionWarning) {
          denied := denied + [watches[i].key];
        }
        i := i + 1;
      }
      assert indices[i..] == [];
    }

    /** The rest of refresh() for the reload that captured `scope`. */
    method OnReloadSettled(scope: nat, outcome: Outcome, readError: Option<string>)
      requires Valid() && reloads != [] && reloads[0].scope == scope
      modifies this
      ensures Valid() && State() == OnReloaded(old(State()), old(reloads)[0], outcome, readError)
      ensures State().reloadWarnings == if scope == old(scopeGeneration) && outcome.Loaded? then outcome.warnings else old(State().reloadWarnings)
      ensures State().reloadError == if scope != old(scopeGeneration) then old(State().reloadError)
                                     else if outcome.Failed? then Some(outcome.message) else None
    {
      ReloadedInv(State(), outcome, readError);
      Turns.PublishResults(TakenIn(State(), reloads[0], outcome), readError);
      TakeResult(scope, outcome);
      PublishState(readError);
    }

    /** The settled reload's result, taken over only in the scope it was begun for. */
    method TakeResult(scope: nat, outcome: Outcome)
      requires Linked() && reloads != [] && reloads[0].scope == scope
      modifies this`reloads, this`reloading, this`reloadError, this`reloadWarnings, this`warningsScope, this`errorScope, this`trace
      ensures Linked() && State() == TakenIn(old(State()), old(reloads)[0], outcome)
    {
      EndReload(scope == scopeGeneration, outcome);
      if scope == scopeGeneration {
        match outcome
        case Loaded(warnings) => SetWarnings(scope, warnings);
        case Failed(message) => SetError(scope, message);
      }
    }

    method EndReload(current: bool, outcome: Outcome)
      requires Linked() && reloads != []
      modifies this`reloads, this`reloading, this`trace
      ensures Linked()
      ensures State() == old(State()).(reloads := old(reloads)[1..], reloading := false, trace := old(trace) + [Ended(current, outcome)])
    {
      reloading := false;
      reloads := reloads[1..];
      trace := trace + [Ended(current, outcome)];
    }

    method SetWarnings(scope: nat, warnings: seq<string>)
      requires Linked()
      modifies this`reloadError, this`reloadWarnings, this`warningsScope
      ensures Linked()
      ensures State() == old(State()).(reloadWarnings := warnings, warningsScope := scope, reloadError := None)
    {
      reloadWarnings := warnings;
      reloadError := None;
      warningsScope := scope;
    }

    method SetError(scope: nat, message: string)
      requires Linked()
      modifies this`reloadError, this`errorScope
      ensures Linked() && State() == old(State()).(reloadError := Some(message), errorScope := scope)
    {
      reloadError := Some(message);
      errorScope := scope;
    }

    /** stop(). */
    method Stop()
      requires Valid()
      modifies this, registrations
      ensures Valid() && State() == OnStop(old(State()))
      ensures disposed && armed == {} && forall c :: 0 <= c < |channels| ==> channels[c].closes == 1
    {
      StopInv(State());
      Turns.StoppedScope(State());
      Dispose();
      CloseEach();
    }

    method CloseEach()
      requires Linked()
      modifies this`channels, this`stops, registrations
      ensures Linked() && State() == CloseAll(old(State()), indices)
    {
      var i := 0;
      while i < |watches|
        invariant 0 <= i <= |watches| && Linked()
        invariant State() == CloseAll(old(State()), indices[..i])
      {
        CloseNext(old(State()), indices, i);
        CloseWatch(watches[i], indices[i]);
        i := i + 1;
      }
      assert indices[..i] == indices;
    }

    method Dispose()
      requires Linked()
      modifies this`disposed, this`armed
      ensures Linked() && State() == old(State()).(disposed := true, armed := old(armed) - {timer})
    {
      disposed := true;
      armed := armed - {timer};
    }

    method CheckReads(readError: Option<string>)
      requires Valid()
      modifies this
      ensures Valid() && State() == OnCheckReads(old(State()), readError)
    {
      PublishedInv(State(), State(), readError);
      PublishState(readError);
    }

    /** update(). */
    method Update(nextKeys: seq<WatchKey>, readError: Option<string>)
      requires Valid()
      modifies this, registrations
      ensures Valid() && State() == OnUpdate(old(State()), nextKeys, readError)
    {
      UpdateInv(State(), nextKeys, readError);
      if !disposed {
        ReplaceWatches(nextKeys, readError);
      }
    }

    method ReplaceWatches(nextKeys: seq<WatchKey>, readError: Option<string>)
      requires Linked()
      modifies this, registrations
      ensures Linked()
      ensures var s := old(State()); State() == Rescope(SweepAll(s, Wanted(nextKeys), s.watches), readError)
    {
      var wanted, kept, ids := KeepWanted(nextKeys);
      EnterKeys(wanted, kept, ids, readError);
    }

    /** The part of update() after its loop over the old watches. */
    method EnterKeys(wanted: seq<WatchKey>, kept: seq<WatchRegistration>, ghost ids: seq<nat>, readError: Option<string>)
      requires Linked() && Places(kept, ids)
      modifies this, registrations
      ensures Linked() && State() == Rescope(Sweep(old(State()), wanted, ids), readError)
    {
      Enroll(wanted, kept, ids);
      Announce(wanted == [], kept, ids, readError);
    }

    method Enroll(wanted: seq<WatchKey>, kept: seq<WatchRegistration>, ghost ids: seq<nat>)
      requires Linked() && Places(kept, ids)
      modifies this, registrations
      ensures Linked() && Places(kept, ids)
      ensures State() == StartAll(Rescoped(Sweep(old(State()), wanted, ids)), Indices(old(|registrations|), |wanted|))
    {
      ghost var first := |registrations|;
      var added := Reshape(wanted, kept, ids);
      StartEach(added, Indices(first, |wanted|));
    }

    /** Registers the added keys behind the kept watches, in a new scope if the keys changed. */
    method Reshape(wanted: seq<WatchKey>, kept: seq<WatchRegistration>, ghost ids: seq<nat>)
      returns (added: seq<WatchRegistration>)
      requires Linked() && Places(kept, ids)
      modifies this
      ensures Linked() && State() == Rescoped(Sweep(old(State()), wanted, ids))
      ensures |added| == |wanted| && fresh(added) && registrations == old(registrations) + added
    {
      if |wanted| > 0 || |kept| < |watches| {
        EnterScope();
      }
      added := AddWatches(wanted, kept, ids);
    }

    method AddWatches(wanted: seq<WatchKey>, kept: seq<WatchRegistration>, ghost ids: seq<nat>)
      returns (added: seq<WatchRegistration>)
      requires Linked() && Places(kept, ids)
      modifies this`registrations, this`watches, this`indices
      ensures Linked() && |added| == |wanted| && fresh(added) && registrations == old(registrations) + added
      ensures var s := old(State());
              State() == s.(registrations := s.registrations + RegisterAll(wanted),
                            watches := ids + Indices(|s.registrations|, |wanted|))
    {
      ghost var first := |registrations|;
      added := RegisterWatches(wanted);
      ghost var places := ids + Indices(first, |wanted|);
      forall i | 0 <= i < |kept + added|
        ensures registrations[places[i]] == (kept + added)[i]
      {
        assert i >= |kept| ==> places[i] == first + (i - |kept|);
      }
      SetWatches(kept + added, places);
    }

    method Announce(onlyKept: bool, kept: seq<WatchRegistration>, ghost ids: seq<nat>, readError: Option<string>)
      requires Linked() && Places(kept, ids)
      modifies this`needsCatchUp, this`reloading, this`reloads, this`trace, this`published
      ensures Linked()
      ensures State() == ResourceWatch.Announce(old(State()), ids, onlyKept, readError)
    {
      if onlyKept {
        PublishState(readError);
        return;
      }
      var warnings := CollectWarnings(kept, ids);
      OnState(Published(Connecting, needsCatchUp || reloading, None, reloadError, Distinct(warnings)));
    }

    /** The kept watches and where they are in registrations. */
    ghost predicate Places(kept: seq<WatchRegistration>, ids: seq<nat>)
      reads this
    {
      && |ids| == |kept| && Within(ids, |registrations|)
      && forall i :: 0 <= i < |kept| ==> registrations[ids[i]] == kept[i]
    }

    /** update's loop over the old watches. */
    method KeepWanted(nextKeys: seq<WatchKey>) returns (wanted: seq<WatchKey>, kept: seq<WatchRegistration>, ghost ids: seq<nat>)
      requires Linked()
      modifies this`channels, this`stops, registrations
      ensures Linked() && Places(kept, ids)
      ensures SweepAll(old(State()), Wanted(nextKeys), indices) == Sweep(State(), wanted, ids)
    {
      ghost var s, all := State(), Wanted(nextKeys);
      wanted, kept, ids := Wanted(nextKeys), [], [];
      var i := 0;
      while i < |watches|
        invariant 0 <= i <= |watches| && Linked() && Places(kept, ids)
        invariant SweepAll(s, all, indices[..i]) == Sweep(State(), wanted, ids)
      {
        SweepNext(s, all, indices, i);
        wanted, kept, ids := KeepOrClose(watches[i], indices[i], wanted, kept, ids);
        i := i + 1;
      }
      assert indices[..i] == indices;
    }

    /** One turn of that loop. */
    method KeepOrClose(watch: WatchRegistration, ghost w: nat, wanted: seq<WatchKey>,
                       kept: seq<WatchRegistration>, ghost ids: seq<nat>)
      returns (left: seq<WatchKey>, still: seq<WatchRegistration>, ghost stillIds: seq<nat>)
      requires Linked() && w < |registrations| && registrations[w] == watch && Places(kept, ids)
      modifies this`channels, this`stops, watch`phase
      ensures Linked() && Places(still, stillIds)
      ensures Sweep(State(), left, stillIds) == SweepOne(Sweep(old(State()), wanted, ids), w)
    {
      var signature := Signature(watch.key);
      assert State().registrations[w].key == watch.key;
      if Has(wanted, signature) {
        left, still, stillIds := Without(wanted, signature), kept + [watch], ids + [w];
      } else {
        left, still, stillIds := wanted, kept, ids;
        CloseWatch(watch, w);
      }
    }

    ghost method MarkTrace(mark: Mark)
      requires Linked()
      modifies this`trace
      ensures Linked() && State() == old(State()).(trace := old(trace) + [mark])
    {
      trace := trace + [mark];
    }

    /** A changed key set starts a new scope without the results of the old one. */
    method EnterScope()
      requires Linked()
      modifies this`scopeGeneration, this`reloadWarnings, this`reloadError, this`trace
      ensures Linked()
      ensures State() == old(State()).(scopeGeneration := old(scopeGeneration) + 1, reloadWarnings := [], reloadError := None,
                                       trace := old(trace) + [KeysChanged])
    {
      MarkTrace(KeysChanged);
      ForgetResults();
      scopeGeneration := scopeGeneration + 1;
    }

    method ForgetResults()
      requires Linked()
      modifies this`reloadWarnings, this`reloadError
      ensures Linked() && State() == old(State()).(reloadWarnings := [], reloadError := None)
    {
      reloadWarnings := [];
      reloadError := None;
    }

    method CollectWarnings(ws: seq<WatchRegistration>, ghost ids: seq<nat>) returns (warnings: seq<string>)
      requires Linked() && Places(ws, ids)
      ensures warnings == PermissionWarnings(State().registrations, ids)
    {
      ghost var regs := Values(registrations);
      warnings := [];
      var i := 0;
      while i < |ws|
        invariant 0 <= i <= |ws|
        invariant warnings + PermissionWarnings(regs, ids[i..]) == PermissionWarnings(regs, ids)
      {
        assert regs[ids[i]] == ws[i].Value();
        assert ids[i..][1..] == ids[i + 1..];
        if HasText(ws[i].permissionWarning) {
          warnings := warnings + [ws[i].permissionWarning.value];
        }
        i := i + 1;
      }
      assert ids[i..] == [];
    }
  }
}
