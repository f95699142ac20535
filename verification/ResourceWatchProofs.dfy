/**
 What every run of a watch scope keeps: who owns each channel and stream, that every interruption is
 followed by a reload, when one of them succeeded, that reload results belong to the current scope, and
 that a watch shown as connected really is.
 */
module ResourceWatchProofs {
  import opened Wrappers
  import opened ResourceWatch
  import opened ResourceWatchTrace

  // ---------------------------------------------------------------- the invariant

  ghost predicate Held(s: State, c: nat)
    requires Shaped(s) && c < |s.channels|
  {
    Holds(s.registrations[s.channels[c].watch].phase, c)
  }

  /** What a watch shows agrees with the last report its open channel delivered. */
  ghost predicate Shows(watch: Watch, report: Option<Message>) {
    match report
    case None => !watch.connected && !Denied(watch)
    case Some(Status(Connected, _)) => watch.connected && watch.error == None && watch.permissionWarning == None
    case Some(Status(Reconnecting, _)) => !watch.connected && watch.permissionWarning == None
    case Some(Status(Forbidden, message)) =>
      !watch.connected && watch.permissionWarning == Some(message) && (message != "" ==> watch.error == None)
    case Some(Error(message)) => !watch.connected && watch.error == Some(message)
    case _ => false
  }

  ghost predicate WatchInv(s: State, w: nat)
    requires Shaped(s) && w < |s.registrations|
  {
    var watch := s.registrations[w];
    match watch.phase
    case Idle => !watch.connected
    case Opening(c) =>
      && c < |s.channels| && s.channels[c].watch == w && s.channels[c].call == Pending
      && Shows(watch, s.channels[c].report)
    case Running(c, id) =>
      && c < |s.channels| && s.channels[c].watch == w && s.channels[c].call == Resolved(id)
      && Shows(watch, s.channels[c].report)
    case Closed => true
  }

  /** A channel is closed exactly once, when its watch lets go of it; a returned stream is held,
      or was stopped exactly once, or ended by itself. */
  ghost predicate ChannelInv(s: State, c: nat)
    requires Shaped(s) && c < |s.channels|
  {
    var channel := s.channels[c];
    && channel.closes == (if Held(s, c) then 0 else 1)
    && (channel.call.Resolved? ==>
          if Held(s, c) then s.stops[channel.call.id] == 0
          else s.stops[channel.call.id] == 1 || (s.stops[channel.call.id] == 0 && channel.report == Some(Stopped)))
  }

  ghost predicate Returned(s: State, id: StreamId) {
    exists c :: 0 <= c < |s.channels| && s.channels[c].call == Resolved(id)
  }

  ghost predicate StreamIds(s: State) {
    && (forall c, d :: 0 <= c < d < |s.channels| && s.channels[c].call.Resolved? ==> s.channels[c].call != s.channels[d].call)
    && (forall id :: id in s.stops ==> Returned(s, id))
  }

  /** What the primitive steps keep; it does not mention which watches are registered. */
  ghost predicate Streams(s: State) {
    && Shaped(s)
    && (forall w :: 0 <= w < |s.registrations| ==> WatchInv(s, w))
    && (forall c :: 0 <= c < |s.channels| ==> ChannelInv(s, c))
    && StreamIds(s)
  }

  ghost predicate DistinctIndices(ws: seq<nat>) {
    forall i, j :: 0 <= i < j < |ws| ==> ws[i] != ws[j]
  }

  /** The watches that are not closed are exactly the registered ones, and none after stop. */
  ghost predicate Members(s: State) {
    && DistinctIndices(s.watches)
    && (forall w :: 0 <= w < |s.registrations| ==>
          (s.registrations[w].phase.Closed? <==> s.disposed || w !in s.watches))
  }

  /** What the scope owes shows: in needsCatchUp, in a running reload or in the error on display. */
  ghost predicate Accounted(s: State) {
    match DebtOf(s.trace)
    case Owed => s.needsCatchUp
    case Loading => s.reloading
    case Shown => HasText(s.reloadError)
    case _ => true
  }

  /** Reloads, recovery timer and results. */
  ghost predicate Loop(s: State) {
    && |s.reloads| == (if s.reloading then 1 else 0)
    && (forall i :: 0 <= i < |s.reloads| ==> s.reloads[i].scope <= s.scopeGeneration)
    && s.armed == (if s.disposed then {} else {s.timer})
    && (s.reloadWarnings != [] ==> s.warningsScope == s.scopeGeneration)
    && (s.reloadError.Some? ==> s.errorScope == s.scopeGeneration)
    && (!s.needsCatchUp ==> CaughtUp(s.trace)) && Accounted(s)
  }

  /** Between callbacks a connected scope with no reload running has nothing left to catch up. */
  ghost predicate Settled(s: State)
    requires Shaped(s)
  {
    !s.disposed && EveryPermittedConnected(s) && !s.reloading ==> !s.needsCatchUp
  }

  ghost predicate Inv(s: State) {
    Streams(s) && Members(s) && Loop(s) && Settled(s)
  }

  lemma StreamsImplyOpened(s: State)
    requires Streams(s)
    ensures PhasesOpened(s)
  {
    forall w | 0 <= w < |s.registrations| ensures ChannelOf(s.registrations[w].phase) <= |s.channels| {
      assert WatchInv(s, w);
    }
  }

  // ---------------------------------------------------------------- primitive steps

  lemma StartKeeps(s: State, w: nat)
    requires Streams(s) && w < |s.registrations|
    ensures Streams(Start(s, w))
  {
    var r := Start(s, w);
    assert WatchInv(s, w);
    forall v | 0 <= v < |r.registrations| ensures WatchInv(r, v) { assert WatchInv(s, v); }
    forall c | 0 <= c < |r.channels| ensures ChannelInv(r, c) {
      if c < |s.channels| {
        assert ChannelInv(s, c);
        assert WatchInv(s, s.channels[c].watch);
      }
    }
    forall id | id in r.stops ensures Returned(r, id) {
      assert Returned(s, id);
      var c :| 0 <= c < |s.channels| && s.channels[c].call == Resolved(id);
      assert r.channels[c].call == Resolved(id);
    }
  }

  lemma {:induction false} StartAllKeeps(s: State, ws: seq<nat>)
    requires Streams(s) && Within(ws, |s.registrations|)
    ensures Streams(StartAll(s, ws))
  {
    if ws != [] {
      StartAllKeeps(s, ws[..|ws| - 1]);
      StartKeeps(StartAll(s, ws[..|ws| - 1]), ws[|ws| - 1]);
    }
  }

  /** `r` differs from `s` only at channel `c`, its watch and the stops of its stream. */
  ghost predicate ChangedAt(s: State, r: State, c: nat)
    requires Shaped(s) && c < |s.channels|
  {
    var w := s.channels[c].watch;
    && |r.registrations| == |s.registrations| && |r.channels| == |s.channels| && r.watches == s.watches
    && (forall v :: 0 <= v < |s.registrations| && v != w ==> r.registrations[v] == s.registrations[v])
    && (forall d :: 0 <= d < |s.channels| && d != c ==> r.channels[d] == s.channels[d])
    && r.channels[c].watch == w
    && (r.registrations[w].phase == s.registrations[w].phase
        || (ChannelOf(s.registrations[w].phase) in {0, c + 1} && ChannelOf(r.registrations[w].phase) in {0, c + 1}))
    && (r.channels[c].call != s.channels[c].call ==> s.channels[c].call == Pending)
    && (r.channels[c].call.Resolved? ==>
          forall d :: 0 <= d < |s.channels| && d != c ==> s.channels[d].call != r.channels[c].call)
    && (forall id :: r.stops[id] != s.stops[id] ==> r.channels[c].call == Resolved(id))
  }

  lemma ChangeShaped(s: State, r: State, c: nat)
    requires Streams(s) && c < |s.channels| && ChangedAt(s, r, c)
    ensures Shaped(r)
  {
    forall d | 0 <= d < |r.channels| ensures r.channels[d].watch < |r.registrations| {
      assert r.channels[d].watch == s.channels[d].watch;
    }
  }

  lemma ChangeKeepsWatches(s: State, r: State, c: nat)
    requires Streams(s) && c < |s.channels| && ChangedAt(s, r, c) && Shaped(r)
    requires WatchInv(r, s.channels[c].watch)
    ensures forall v :: 0 <= v < |r.registrations| ==> WatchInv(r, v)
  {
    forall v | 0 <= v < |r.registrations| ensures WatchInv(r, v) { assert WatchInv(s, v); }
  }

  lemma ChangeKeepsChannels(s: State, r: State, c: nat)
    requires Streams(s) && c < |s.channels| && ChangedAt(s, r, c) && Shaped(r)
    requires ChannelInv(r, c)
    ensures forall d :: 0 <= d < |r.channels| ==> ChannelInv(r, d)
  {
    forall d | 0 <= d < |r.channels| ensures ChannelInv(r, d) {
      assert ChannelInv(s, d);
      if d != c {
        assert Held(r, d) == Held(s, d);
        assert r.channels[d] == s.channels[d];
      }
    }
  }

  lemma ChangeKeepsIds(s: State, r: State, c: nat)
    requires Streams(s) && c < |s.channels| && ChangedAt(s, r, c)
    ensures StreamIds(r)
  {
    forall id | id in r.stops ensures Returned(r, id) {
      if r.stops[id] != s.stops[id] {
        assert r.channels[c].call == Resolved(id);
      } else {
        assert id in s.stops && Returned(s, id);
        var d :| 0 <= d < |s.channels| && s.channels[d].call == Resolved(id);
        assert r.channels[d].call == Resolved(id);
      }
    }
    forall d, e | 0 <= d < e < |r.channels| && r.channels[d].call.Resolved?
      ensures r.channels[d].call != r.channels[e].call
    {
      assert d != c ==> r.channels[d] == s.channels[d];
      assert e != c ==> r.channels[e] == s.channels[e];
    }
  }

  lemma ChangeKeeps(s: State, r: State, c: nat)
    requires Streams(s) && c < |s.channels| && ChangedAt(s, r, c) && Shaped(r)
    requires WatchInv(r, s.channels[c].watch) && ChannelInv(r, c)
    ensures Streams(r)
  {
    ChangeKeepsWatches(s, r, c);
    ChangeKeepsChannels(s, r, c);
    ChangeKeepsIds(s, r, c);
  }

  lemma CloseOpenedChange(s: State, w: nat)
    requires Streams(s) && w < |s.registrations| && 0 < ChannelOf(s.registrations[w].phase) <= |s.channels|
    ensures s.channels[s.registrations[w].phase.channel].watch == w
    ensures ChangedAt(s, Close(s, w), s.registrations[w].phase.channel)
  {
    assert WatchInv(s, w);
    assert ChannelInv(s, s.registrations[w].phase.channel);
  }

  lemma CloseOpenedChannel(s: State, w: nat)
    requires Streams(s) && w < |s.registrations| && 0 < ChannelOf(s.registrations[w].phase) <= |s.channels|
    ensures WatchInv(Close(s, w), w) && ChannelInv(Close(s, w), s.registrations[w].phase.channel)
  {
    assert WatchInv(s, w);
    assert ChannelInv(s, s.registrations[w].phase.channel);
  }

  lemma CloseUnopenedKeeps(s: State, w: nat)
    requires Streams(s) && w < |s.registrations| && ChannelOf(s.registrations[w].phase) == 0
    ensures Streams(Close(s, w))
  {
    var r := Close(s, w);
    forall v | 0 <= v < |r.registrations| ensures WatchInv(r, v) { assert WatchInv(s, v); }
    forall c | 0 <= c < |r.channels| ensures ChannelInv(r, c) {
      assert ChannelInv(s, c) && Held(r, c) == Held(s, c);
    }
    forall id | id in r.stops ensures Returned(r, id) { assert Returned(s, id); }
  }

  lemma CloseKeeps(s: State, w: nat)
    requires Streams(s) && w < |s.registrations| && ChannelOf(s.registrations[w].phase) <= |s.channels|
    ensures Streams(Close(s, w))
  {
    if ChannelOf(s.registrations[w].phase) == 0 {
      CloseUnopenedKeeps(s, w);
    } else {
      CloseOpenedChange(s, w);
      CloseOpenedChannel(s, w);
      ChangeKeeps(s, Close(s, w), s.registrations[w].phase.channel);
    }
  }

  /** Steps that touch no watch, channel or stream. */
  lemma FrameKeeps(s: State, r: State)
    requires Streams(s)
    requires r.registrations == s.registrations && r.channels == s.channels && r.stops == s.stops
    requires Within(r.watches, |r.registrations|)
    ensures Streams(r)
  {
    forall w | 0 <= w < |r.registrations| ensures WatchInv(r, w) { assert WatchInv(s, w); }
    forall c | 0 <= c < |r.channels| ensures ChannelInv(r, c) { assert ChannelInv(s, c); }
    forall id | id in r.stops ensures Returned(r, id) {
      assert Returned(s, id);
    }
  }

  lemma RegisterKeeps(s: State, keys: seq<WatchKey>, ws: seq<nat>)
    requires Streams(s)
    requires Within(ws, |s.registrations| + |keys|)
    ensures Streams(s.(registrations := s.registrations + RegisterAll(keys), watches := ws))
  {
    var r := s.(registrations := s.registrations + RegisterAll(keys), watches := ws);
    forall w | 0 <= w < |r.registrations| ensures WatchInv(r, w) {
      if w < |s.registrations| { assert WatchInv(s, w); }
    }
    forall c | 0 <= c < |r.channels| ensures ChannelInv(r, c) { assert ChannelInv(s, c); }
    forall id | id in r.stops ensures Returned(r, id) { assert Returned(s, id); }
  }

  lemma ReceiveChange(s: State, c: nat, msg: Message)
    requires Streams(s) && c < |s.channels| && Listening(s, c)
    ensures ChangedAt(s, Receive(s, c, msg), c)
  {
    assert WatchInv(s, s.channels[c].watch) && ChannelInv(s, c);
  }

  lemma ReceiveChannel(s: State, c: nat, msg: Message)
    requires Streams(s) && c < |s.channels| && Listening(s, c)
    ensures WatchInv(Receive(s, c, msg), s.channels[c].watch) && ChannelInv(Receive(s, c, msg), c)
  {
    assert WatchInv(s, s.channels[c].watch) && ChannelInv(s, c);
  }

  lemma ReceiveKeeps(s: State, c: nat, msg: Message)
    requires Streams(s) && c < |s.channels| && Listening(s, c)
    ensures Streams(Receive(s, c, msg))
  {
    ReceiveChange(s, c, msg);
    ReceiveChannel(s, c, msg);
    ChangeKeeps(s, Receive(s, c, msg), c);
  }

  lemma StartedKeeps(s: State, c: nat, id: StreamId)
    requires Streams(s) && Enabled(s, StartResolves(c, id))
    requires s.disposed ==> !Held(s, c)
    ensures Streams(OnStarted(s, c, id))
  {
    var r := OnStarted(s, c, id);
    assert WatchInv(s, s.channels[c].watch) && ChannelInv(s, c);
    assert id !in s.stops;
    assert ChangedAt(s, r, c);
    ChangeShaped(s, r, c);
    ChangeKeeps(s, r, c);
  }

  /** The `.catch` up to its publish(). */
  function Refused(s: State, c: nat, message: string): State
    requires Shaped(s) && c < |s.channels|
  {
    var w := s.channels[c].watch;
    var s1 := Answer(s, c, Rejected);
    if s.registrations[w].phase != Opening(c) then s1
    else CloseChannel(s1, c).(
      registrations := s.registrations[w := s.registrations[w].(phase := Idle, error := Some(message), connected := false)],
      needsCatchUp := true, trace := s.trace + [Interrupted])
  }

  lemma RefusedKeeps(s: State, c: nat, message: string)
    requires Streams(s) && Enabled(s, StartRejects(c, message))
    ensures Streams(Refused(s, c, message))
  {
    var r := Refused(s, c, message);
    assert WatchInv(s, s.channels[c].watch) && ChannelInv(s, c);
    assert ChangedAt(s, r, c);
    ChangeShaped(s, r, c);
    ChangeKeeps(s, r, c);
  }

  // ---------------------------------------------------------------- catching up

  lemma RefreshKeeps(s: State, keys: Option<seq<WatchKey>>)
    requires Streams(s) && Loop(s)
    ensures Streams(Refresh(s, keys)) && Loop(Refresh(s, keys))
  {
    FrameKeeps(s, Refresh(s, keys));
    var m := Began(keys, EveryPermittedConnected(s));
    DebtNext(s.trace, m);
    if !s.needsCatchUp && !s.disposed && !s.reloading { TraceGrows(s.trace, m); }
  }

  /** publish() restores the part of the invariant a handler may have broken. */
  lemma PublishKeeps(s: State, readError: Option<string>)
    requires Streams(s) && Members(s) && Loop(s)
    ensures Inv(Publish(s, readError))
  {
    FrameKeeps(s, Publish(s, readError));
    DebtNext(s.trace, Began(None, true));
    if !s.disposed && EveryPermittedConnected(s) && s.needsCatchUp && !s.reloading {
      TraceCatchesUp(s.trace);
    }
  }

  // ---------------------------------------------------------------- registering

  lemma {:induction false} StartAllLoop(s: State, ws: seq<nat>)
    requires Shaped(s) && Within(ws, |s.registrations|)
    ensures var r := StartAll(s, ws);
            && r == s.(registrations := r.registrations, channels := r.channels)
            && (forall w :: 0 <= w < |s.registrations| ==>
                  && (r.registrations[w].phase.Closed? <==> s.registrations[w].phase.Closed?)
                  && (w !in ws ==> r.registrations[w] == s.registrations[w])
                  && r.registrations[w] == s.registrations[w].(phase := r.registrations[w].phase)
                  && (!s.disposed && w in ws ==> !r.registrations[w].phase.Idle? || Denied(r.registrations[w]))
                  && (!s.registrations[w].phase.Idle? ==> r.registrations[w] == s.registrations[w]))
  {
    if ws != [] {
      StartAllLoop(s, ws[..|ws| - 1]);
      assert ws == ws[..|ws| - 1] + [ws[|ws| - 1]];
    }
  }

  lemma CloseEffect(s: State, w: nat)
    requires Shaped(s) && w < |s.registrations| && ChannelOf(s.registrations[w].phase) <= |s.channels|
    ensures var r := Close(s, w);
            && r == s.(registrations := r.registrations, channels := r.channels, stops := r.stops)
            && r.registrations == s.registrations[w := s.registrations[w].(phase := Closed)]
  {
  }

  lemma {:induction false} CloseAllKeeps(s: State, ws: seq<nat>)
    requires Streams(s) && PhasesOpened(s) && Within(ws, |s.registrations|)
    ensures Streams(CloseAll(s, ws))
  {
    if ws != [] {
      CloseAllKeeps(s, ws[..|ws| - 1]);
      CloseKeeps(CloseAll(s, ws[..|ws| - 1]), ws[|ws| - 1]);
    }
  }

  lemma {:induction false} CloseAllEffect(s: State, ws: seq<nat>)
    requires Shaped(s) && PhasesOpened(s) && Within(ws, |s.registrations|)
    ensures var r := CloseAll(s, ws);
            && r == s.(registrations := r.registrations, channels := r.channels, stops := r.stops)
            && (forall w :: 0 <= w < |s.registrations| ==>
                  (r.registrations[w].phase.Closed? <==> s.registrations[w].phase.Closed? || w in ws))
  {
    if ws != [] {
      CloseAllEffect(s, ws[..|ws| - 1]);
      CloseEffect(CloseAll(s, ws[..|ws| - 1]), ws[|ws| - 1]);
      assert ws == ws[..|ws| - 1] + [ws[|ws| - 1]];
    }
  }

  lemma {:induction false} SweepKeeps(s: State, wanted: seq<WatchKey>, ws: seq<nat>)
    requires Streams(s) && PhasesOpened(s) && Within(ws, |s.registrations|)
    ensures Streams(SweepAll(s, wanted, ws).state)
  {
    if ws != [] {
      var before := SweepAll(s, wanted, ws[..|ws| - 1]);
      SweepKeeps(s, wanted, ws[..|ws| - 1]);
      CloseKeeps(before.state, ws[|ws| - 1]);
    }
  }

  /** The kept watches are distinct ones of the list. */
  ghost predicate KeptOf(kept: seq<nat>, ws: seq<nat>) {
    && DistinctIndices(kept) && (forall w :: w in kept ==> w in ws)
    && |kept| <= |ws| && (|kept| == |ws| ==> kept == ws)
  }

  lemma KeptNext(kept: seq<nat>, prefix: seq<nat>, w: nat)
    requires KeptOf(kept, prefix) && w !in prefix
    ensures KeptOf(kept + [w], prefix + [w]) && KeptOf(kept, prefix + [w])
  {
  }

  lemma {:induction false} SweepKept(s: State, wanted: seq<WatchKey>, ws: seq<nat>)
    requires Shaped(s) && PhasesOpened(s) && Within(ws, |s.registrations|) && DistinctIndices(ws)
    ensures KeptOf(SweepAll(s, wanted, ws).kept, ws)
  {
    if ws != [] {
      var prefix, w := ws[..|ws| - 1], ws[|ws| - 1];
      SweepKept(s, wanted, prefix);
      assert ws == prefix + [w] && w !in prefix;
      KeptNext(SweepAll(s, wanted, prefix).kept, prefix, w);
    }
  }

  /** Only the listed watches that are not kept are closed, and nothing else changes about a watch. */
  ghost predicate SweptFrom(s: State, r: State, kept: seq<nat>, ws: seq<nat>) {
    && |r.registrations| == |s.registrations|
    && r == s.(registrations := r.registrations, channels := r.channels, stops := r.stops)
    && (forall w :: 0 <= w < |s.registrations| ==>
          r.registrations[w] == if w in ws && w !in kept then s.registrations[w].(phase := Closed) else s.registrations[w])
  }

  lemma SweptNext(s: State, before: Sweep, prefix: seq<nat>, w: nat)
    requires Shaped(before.state) && PhasesOpened(before.state) && w < |before.state.registrations|
    requires Within(before.kept, |before.state.registrations|)
    requires SweptFrom(s, before.state, before.kept, prefix) && KeptOf(before.kept, prefix) && w !in prefix
    ensures var r := SweepOne(before, w); SweptFrom(s, r.state, r.kept, prefix + [w])
  {
    CloseEffect(before.state, w);
  }

  /** The sweep closes exactly the watches it does not keep, and leaves the others alone. */
  lemma {:induction false} SweepEffect(s: State, wanted: seq<WatchKey>, ws: seq<nat>)
    requires Shaped(s) && PhasesOpened(s) && Within(ws, |s.registrations|) && DistinctIndices(ws)
    ensures var r := SweepAll(s, wanted, ws); SweptFrom(s, r.state, r.kept, ws)
  {
    if ws != [] {
      var prefix, w := ws[..|ws| - 1], ws[|ws| - 1];
      SweepEffect(s, wanted, prefix);
      SweepKept(s, wanted, prefix);
      assert ws == prefix + [w] && w !in prefix;
      SweptNext(s, SweepAll(s, wanted, prefix), prefix, w);
    }
  }

  // ---------------------------------------------------------------- events

  lemma InitInv(keys: seq<WatchKey>)
    ensures Inv(Init(keys))
  {
    var blank := State(false, 0, false, false, None, [], 0,
                       Indices(0, |keys|), RegisterAll(keys), [], multiset{}, [], {}, [], 0, 0, [], [CONNECTING]);
    assert Streams(blank);
    StartAllKeeps(blank, blank.watches);
    StartAllLoop(blank, blank.watches);
    var s := StartAll(blank, blank.watches);
    FrameKeeps(s, Arm(s));
    forall w | 0 <= w < |keys| ensures w in blank.watches { assert blank.watches[w] == w; }
  }

  /** publish() after a change that keeps the registered watches. */
  lemma PublishedInv(s: State, s1: State, readError: Option<string>)
    requires Inv(s) && Streams(s1) && s1.watches == s.watches && |s1.registrations| == |s.registrations|
    requires forall w :: 0 <= w < |s.registrations| ==>
               (s1.registrations[w].phase.Closed? <==> s.registrations[w].phase.Closed?)
    requires s1.disposed == s.disposed && Loop(s1)
    ensures Inv(Publish(s1, readError))
  {
    PublishKeeps(s1, readError);
  }

  /** Changes that leave the reload loop alone. */
  lemma LoopStays(s: State, r: State)
    requires Loop(s)
    requires r == s.(registrations := r.registrations, watches := r.watches, channels := r.channels, stops := r.stops,
                     changes := r.changes)
    ensures Loop(r)
  {
  }

  lemma LoopInterrupted(s: State, r: State)
    requires Loop(s)
    requires r == s.(registrations := r.registrations, channels := r.channels,
                     needsCatchUp := true, trace := s.trace + [Interrupted])
    ensures Loop(r)
  {
    DebtNext(s.trace, Interrupted);
  }

  lemma LoopRescoped(s: State, r: State)
    requires Loop(s)
    requires r == s.(registrations := r.registrations, watches := r.watches, channels := r.channels, stops := r.stops,
                     scopeGeneration := s.scopeGeneration + 1, reloadWarnings := [], reloadError := None,
                     trace := s.trace + [KeysChanged])
    ensures Loop(r)
  {
    DebtNext(s.trace, KeysChanged);
    if !s.needsCatchUp { TraceGrows(s.trace, KeysChanged); }
  }

  lemma ReceiveLoop(s: State, c: nat, msg: Message)
    requires Shaped(s) && c < |s.channels| && Loop(s)
    ensures Loop(Receive(s, c, msg)) && Receive(s, c, msg).disposed == s.disposed
  {
    if Interrupts(msg) { LoopInterrupted(s, Receive(s, c, msg)); } else { LoopStays(s, Receive(s, c, msg)); }
  }

  lemma ReceivePhases(s: State, c: nat, msg: Message)
    requires Shaped(s) && c < |s.channels| && Listening(s, c)
    ensures var r := Receive(s, c, msg);
            forall w :: 0 <= w < |s.registrations| ==>
              (r.registrations[w].phase.Closed? <==> s.registrations[w].phase.Closed?)
  {
  }

  lemma MessageInv(s: State, c: nat, msg: Message, readError: Option<string>)
    requires Inv(s) && c < |s.channels|
    ensures Inv(OnMessage(s, c, msg, readError))
  {
    if Listening(s, c) {
      ReceiveKeeps(s, c, msg);
      ReceiveLoop(s, c, msg);
      ReceivePhases(s, c, msg);
      PublishedInv(s, Receive(s, c, msg), readError);
    }
  }

  lemma StartedEffect(s: State, c: nat, id: StreamId)
    requires Shaped(s) && c < |s.channels|
    ensures var r := OnStarted(s, c, id);
            && r == s.(registrations := r.registrations, channels := r.channels, stops := r.stops)
            && |r.registrations| == |s.registrations|
            && (forall w :: 0 <= w < |s.registrations| ==>
                  && Ready(r.registrations[w]) == Ready(s.registrations[w])
                  && (r.registrations[w].phase.Closed? <==> s.registrations[w].phase.Closed?))
  {
  }

  /** Steps that leave the loop, the registered watches and what they show alone. */
  lemma SameViewInv(s: State, r: State)
    requires Inv(s) && Streams(r) && |r.registrations| == |s.registrations|
    requires r == s.(registrations := r.registrations, channels := r.channels, stops := r.stops)
    requires forall w :: 0 <= w < |s.registrations| ==>
                && Ready(r.registrations[w]) == Ready(s.registrations[w])
                && (r.registrations[w].phase.Closed? <==> s.registrations[w].phase.Closed?)
    ensures Inv(r)
  {
    assert EveryPermittedConnected(r) == EveryPermittedConnected(s);
  }

  lemma StartedInv(s: State, c: nat, id: StreamId)
    requires Inv(s) && Enabled(s, StartResolves(c, id))
    ensures Inv(OnStarted(s, c, id))
  {
    assert s.disposed ==> s.registrations[s.channels[c].watch].phase.Closed?;
    StartedKeeps(s, c, id);
    StartedEffect(s, c, id);
    SameViewInv(s, OnStarted(s, c, id));
  }

  lemma RefusedInv(s: State, c: nat, message: string, readError: Option<string>)
    requires Inv(s) && Enabled(s, StartRejects(c, message))
    ensures Inv(OnRefused(s, c, message, readError))
  {
    RefusedKeeps(s, c, message);
    if s.registrations[s.channels[c].watch].phase == Opening(c) {
      PublishedInv(s, Refused(s, c, message), readError);
    }
  }

  /** The restart of a tick leaves the scope settled and its loop in order, but for the timer. */
  lemma TickStarts(s: State, handle: nat)
    requires Inv(s) && Enabled(s, TimerFires(handle))
    ensures var s1 := StartAll(s.(armed := s.armed - {handle}), s.watches);
            && Streams(s1) && Members(s1) && !s1.disposed && s1.armed == {}
            && EveryPermittedConnected(s1) == EveryPermittedConnected(s)
            && s1 == s.(armed := {}, registrations := s1.registrations, channels := s1.channels)
  {
    var s0 := s.(armed := s.armed - {handle});
    FrameKeeps(s, s0);
    StartAllKeeps(s0, s0.watches);
    StartAllLoop(s0, s0.watches);
    var s1 := StartAll(s0, s0.watches);
    assert forall w :: 0 <= w < |s.registrations| ==> Ready(s1.registrations[w]) == Ready(s.registrations[w]);
  }

  lemma TickCatchesUp(s1: State)
    requires Streams(s1) && Members(s1) && !s1.disposed && s1.armed == {} && Loop(s1.(armed := {s1.timer}))
    requires EveryPermittedConnected(s1) ==> Settled(s1)
    ensures var s2 := Woken(s1);
            && Streams(s2) && Members(s2) && !s2.disposed && s2.armed == {} && Loop(s2.(armed := {s2.timer})) && Settled(s2)
  {
    FrameKeeps(s1, s1.(needsCatchUp := true));
  }

  lemma TickRecovers(s: State, readError: Option<string>)
    requires Streams(s) && Members(s) && !s.disposed && s.armed == {} && Loop(s.(armed := {s.timer})) && Settled(s)
    ensures Inv(Arm(Recovered(s, readError)))
  {
    var denied := DeniedKeys(s.registrations, s.watches);
    TickRefreshKeeps(s, if !s.needsCatchUp && !HasText(readError) && denied != [] then Some(denied) else None);
  }

  lemma TickLoop(s: State, s1: State)
    requires Inv(s) && !s.disposed && Shaped(s1) && EveryPermittedConnected(s1) == EveryPermittedConnected(s)
    requires s1 == s.(armed := {}, registrations := s1.registrations, channels := s1.channels)
    ensures Loop(s1.(armed := {s1.timer})) && (EveryPermittedConnected(s1) ==> Settled(s1))
  {
  }

  lemma TickInv(s: State, handle: nat, readError: Option<string>)
    requires Inv(s) && Enabled(s, TimerFires(handle))
    ensures Inv(OnTick(s, handle, readError))
  {
    var s1 := StartAll(s.(armed := s.armed - {handle}), s.watches);
    TickStarts(s, handle);
    TickLoop(s, s1);
    TickCatchesUp(s1);
    TickRecovers(Woken(s1), readError);
  }

  /** A tick leaves the watches as its restart left them. */
  lemma TickFrame(s: State, handle: nat, readError: Option<string>)
    requires Shaped(s) && !s.disposed
    ensures var r, s1 := OnTick(s, handle, readError), StartAll(s.(armed := s.armed - {handle}), s.watches);
            r.registrations == s1.registrations && r.watches == s1.watches
  {
  }

  lemma TickRefreshKeeps(s: State, keys: Option<seq<WatchKey>>)
    requires Streams(s) && Members(s) && !s.disposed && s.armed == {} && Loop(s.(armed := {s.timer})) && Settled(s)
    ensures Inv(Arm(s)) && Inv(Arm(Refresh(s, keys)))
  {
    var t := s.(armed := {s.timer});
    FrameKeeps(s, t);
    RefreshKeeps(t, keys);
    FrameKeeps(s, Arm(s));
    FrameKeeps(s, Arm(Refresh(s, keys)));
  }

  lemma TakenInAccounted(s: State, outcome: Outcome)
    requires Shaped(s) && Loop(s) && s.reloads != []
    ensures Accounted(TakenIn(s, s.reloads[0], outcome))
  {
    DebtNext(s.trace, Ended(s.reloads[0].scope == s.scopeGeneration, outcome));
  }

  lemma TakenInLoop(s: State, outcome: Outcome)
    requires Shaped(s) && Loop(s) && s.reloads != []
    ensures Loop(TakenIn(s, s.reloads[0], outcome))
  {
    TakenInAccounted(s, outcome);
    if !s.needsCatchUp { TraceGrows(s.trace, Ended(s.reloads[0].scope == s.scopeGeneration, outcome)); }
  }

  lemma ReloadedInv(s: State, outcome: Outcome, readError: Option<string>)
    requires Inv(s) && s.reloads != []
    ensures Inv(OnReloaded(s, s.reloads[0], outcome, readError))
  {
    var s1 := TakenIn(s, s.reloads[0], outcome);
    FrameKeeps(s, s1);
    TakenInLoop(s, outcome);
    PublishedInv(s, s1, readError);
  }

  lemma StopInv(s: State)
    requires Inv(s)
    ensures PhasesOpened(s) && Inv(OnStop(s))
  {
    StreamsImplyOpened(s);
    var s0 := s.(disposed := true, armed := s.armed - {s.timer});
    FrameKeeps(s, s0);
    CloseAllKeeps(s0, s.watches);
    CloseAllEffect(s0, s.watches);
  }

  lemma RescopedStreams(s: State, wanted: seq<WatchKey>)
    requires Streams(s) && PhasesOpened(s)
    ensures Streams(Rescoped(SweepAll(s, wanted, s.watches)))
  {
    var swept := SweepAll(s, wanted, s.watches);
    SweepKeeps(s, wanted, s.watches);
    var r := Rescoped(swept);
    var r0 := r.(registrations := swept.state.registrations, watches := swept.state.watches);
    FrameKeeps(swept.state, r0);
    RegisterKeeps(r0, swept.wanted, r.watches);
  }

  lemma RescopedWatches(s: State, wanted: seq<WatchKey>)
    requires Shaped(s) && PhasesOpened(s) && Members(s) && !s.disposed
    ensures Members(Rescoped(SweepAll(s, wanted, s.watches)))
  {
    var swept := SweepAll(s, wanted, s.watches);
    SweepKept(s, wanted, s.watches);
    SweepEffect(s, wanted, s.watches);
    var r := Rescoped(swept);
    var first, k := |s.registrations|, |swept.kept|;
    forall i, j | 0 <= i < j < |r.watches| ensures r.watches[i] != r.watches[j] {
      assert i < k ==> r.watches[i] == swept.kept[i];
      assert j < k ==> r.watches[j] == swept.kept[j];
    }
    forall w | 0 <= w < |r.registrations| ensures r.registrations[w].phase.Closed? <==> w !in r.watches {
      if w < first {
        RescopedMember(swept.kept, first, |swept.wanted|, w);
      } else {
        assert r.watches[k + (w - first)] == w;
      }
    }
  }

  lemma RescopedMember(kept: seq<nat>, first: nat, count: nat, w: nat)
    requires w < first
    ensures w in kept + Indices(first, count) <==> w in kept
  {
  }

  lemma RescopedLoop(s: State, wanted: seq<WatchKey>)
    requires Shaped(s) && PhasesOpened(s) && Members(s) && Loop(s)
    ensures Loop(Rescoped(SweepAll(s, wanted, s.watches)))
  {
    SweepEffect(s, wanted, s.watches);
    LoopStays(s, SweepAll(s, wanted, s.watches).state);
    SweptLoop(SweepAll(s, wanted, s.watches));
  }

  lemma SweptLoop(swept: Sweep)
    requires Shaped(swept.state) && Within(swept.kept, |swept.state.registrations|) && Loop(swept.state)
    ensures Loop(Rescoped(swept))
  {
    if |swept.wanted| > 0 || |swept.kept| < |swept.state.watches| {
      LoopRescoped(swept.state, Rescoped(swept));
    } else {
      LoopStays(swept.state, Rescoped(swept));
    }
  }

  /** A just registered watch is neither connected nor denied, so the scope is not settled. */
  lemma AddedUnready(r: State, i: nat, key: WatchKey)
    requires Shaped(r) && i < |r.watches|
    requires var watch := r.registrations[r.watches[i]]; watch == Register(key).(phase := watch.phase)
    ensures Settled(r)
  {
    assert !Ready(r.registrations[r.watches[i]]);
  }

  lemma UpdateInv(s: State, keys: seq<WatchKey>, readError: Option<string>)
    requires Inv(s)
    ensures PhasesOpened(s) && Inv(OnUpdate(s, keys, readError))
  {
    StreamsImplyOpened(s);
    if !s.disposed {
      RescopedStreams(s, Wanted(keys));
      RescopedWatches(s, Wanted(keys));
      RescopedLoop(s, Wanted(keys));
      RescopeInv(SweepAll(s, Wanted(keys), s.watches), readError);
    }
  }

  /** The added watches are started; none of them is ready yet. */
  lemma RescopedStarts(swept: Sweep)
    requires Shaped(swept.state) && Within(swept.kept, |swept.state.registrations|)
    requires Streams(Rescoped(swept)) && Members(Rescoped(swept)) && Loop(Rescoped(swept))
    ensures var s3 := StartAll(Rescoped(swept), Indices(|swept.state.registrations|, |swept.wanted|));
            Streams(s3) && Members(s3) && Loop(s3) && (swept.wanted != [] ==> Settled(s3))
  {
    var s2, added := Rescoped(swept), Indices(|swept.state.registrations|, |swept.wanted|);
    StartAllKeeps(s2, added);
    StartAllLoop(s2, added);
    if swept.wanted != [] {
      assert s2.registrations[added[0]] == Register(swept.wanted[0]);
      AddedUnready(StartAll(s2, added), |swept.kept|, swept.wanted[0]);
    }
  }

  lemma AnnounceKeeps(s: State, kept: seq<nat>, onlyKept: bool, readError: Option<string>)
    requires Streams(s) && Members(s) && Loop(s) && (!onlyKept ==> Settled(s)) && Within(kept, |s.registrations|)
    ensures Inv(Announce(s, kept, onlyKept, readError))
  {
    if onlyKept { PublishKeeps(s, readError); } else { FrameKeeps(s, Announce(s, kept, onlyKept, readError)); }
  }

  lemma RescopeInv(swept: Sweep, readError: Option<string>)
    requires Shaped(swept.state) && Within(swept.kept, |swept.state.registrations|)
    requires Streams(Rescoped(swept)) && Members(Rescoped(swept)) && Loop(Rescoped(swept))
    ensures Inv(Rescope(swept, readError))
  {
    RescopedStarts(swept);
    var s3 := StartAll(Rescoped(swept), Indices(|swept.state.registrations|, |swept.wanted|));
    AnnounceKeeps(s3, swept.kept, swept.wanted == [], readError);
  }

  lemma StepInv(s: State, e: Event, readError: Option<string>)
    requires Inv(s) && Enabled(s, e)
    ensures PhasesOpened(s) && Inv(Step(s, e, readError))
  {
    StreamsImplyOpened(s);
    match e
    case MessageArrives(c, msg) => MessageInv(s, c, msg, readError);
    case StartResolves(c, id) => StartedInv(s, c, id);
    case StartRejects(c, message) => RefusedInv(s, c, message, readError);
    case TimerFires(h) => TickInv(s, h, readError);
    case ReloadSettles(outcome) => ReloadedInv(s, outcome, readError);
    case UpdateCalled(keys) => UpdateInv(s, keys, readError);
    case StopCalled => StopInv(s);
    case CheckReadsCalled => PublishedInv(s, s, readError);
  }

  // ---------------------------------------------------------------- every run

  /** One JavaScript turn: an event, and what handlers.readError returns during it. */
  datatype Turn = Turn(event: Event, readError: Option<string>)

  /** The state after any sequence of turns; a turn the environment cannot take yet is skipped. */
  ghost function After(keys: seq<WatchKey>, turns: seq<Turn>): (s: State)
    ensures Inv(s)
  {
    if turns == [] then
      InitInv(keys);
      Init(keys)
    else
      var s := After(keys, turns[..|turns| - 1]);
      var turn := turns[|turns| - 1];
      if Enabled(s, turn.event) then
        StepInv(s, turn.event, turn.readError);
        Step(s, turn.event, turn.readError)
      else s
  }

  /** The channels that are open are exactly those a registered watch holds, each by one watch,
      and no channel is ever closed twice. */
  lemma ChannelOwnership(keys: seq<WatchKey>, turns: seq<Turn>, c: nat)
    requires c < |After(keys, turns).channels|
    ensures var s := After(keys, turns);
            && s.channels[c].closes <= 1
            && (s.channels[c].closes == 0 <==> exists w :: w in s.watches && Holds(s.registrations[w].phase, c))
            && (forall v, w :: 0 <= v < |s.registrations| && 0 <= w < |s.registrations| ==>
                  Holds(s.registrations[v].phase, c) && Holds(s.registrations[w].phase, c) ==> v == w)
  {
    var s := After(keys, turns);
    assert ChannelInv(s, c);
    forall w | 0 <= w < |s.registrations| && Holds(s.registrations[w].phase, c)
      ensures w == s.channels[c].watch && w in s.watches
    {
      assert WatchInv(s, w);
    }
  }

  /** Every stream the backend returned is run by exactly one registered watch and was never
      stopped; or it was stopped exactly once; or its own channel reported that it ended. */
  lemma StreamOwnership(keys: seq<WatchKey>, turns: seq<Turn>, c: nat, id: StreamId)
    requires c < |After(keys, turns).channels| && After(keys, turns).channels[c].call == Resolved(id)
    ensures var s := After(keys, turns);
            var owners := set w | w in s.watches && s.registrations[w].phase == Running(c, id);
            if |owners| == 1 then s.stops[id] == 0
            else owners == {} && (s.stops[id] == 1 || (s.stops[id] == 0 && s.channels[c].report == Some(Stopped)))
    ensures var s := After(keys, turns);
            forall d :: 0 <= d < |s.channels| && s.channels[d].call == Resolved(id) ==> d == c
  {
    var s := After(keys, turns);
    var owner := s.channels[c].watch;
    assert ChannelInv(s, c);
    assert WatchInv(s, owner);
    var owners := set w | w in s.watches && s.registrations[w].phase == Running(c, id);
    forall w | w in owners ensures w == owner { assert WatchInv(s, w); }
    if Held(s, c) {
      assert owners == {owner};
    } else {
      assert owners == {};
    }
  }

  /** Nothing is stopped that the backend did not start. */
  lemma OnlyReturnedStreamsStop(keys: seq<WatchKey>, turns: seq<Turn>, id: StreamId)
    requires id in After(keys, turns).stops
    ensures var s := After(keys, turns);
            exists c :: 0 <= c < |s.channels| && s.channels[c].call == Resolved(id)
  {
    assert Returned(After(keys, turns), id);
  }

  /** While needsCatchUp is false, every error, ended stream, failed start and disconnect so far
      was followed by a whole-scope reload that began with every permitted watch connected. */
  lemma NoForgottenInterruption(keys: seq<WatchKey>, turns: seq<Turn>, i: nat)
    requires var s := After(keys, turns); !s.needsCatchUp && i < |s.trace| && s.trace[i] == Interrupted
    ensures var s := After(keys, turns); exists j :: i < j < |s.trace| && s.trace[j] == Began(None, true)
  {
    assert Overtaken(After(keys, turns).trace, i);
  }

  /** A scope whose permitted watches are all connected never waits with work left: it is
      reloading, or every interruption so far was caught up. */
  lemma ConnectedScopeCatchesUp(keys: seq<WatchKey>, turns: seq<Turn>)
    requires var s := After(keys, turns); !s.disposed && EveryPermittedConnected(s) && s.reloads == []
    ensures CaughtUp(After(keys, turns).trace)
  {
    assert Settled(After(keys, turns));
  }

  /** A scope at rest: every permitted watch connected, no reload running and no reload error on display. */
  ghost predicate AtRest(s: State)
    requires Shaped(s)
  {
    !s.disposed && EveryPermittedConnected(s) && s.reloads == [] && !HasText(s.reloadError)
  }

  /** At rest every interruption was followed by a whole-scope reload that succeeded, if and only if the scope did
      not lose sight of a failed one: no failure dropped by a change of the key set or for its empty message, and no
      error of a failed one cleared by a reload of the denied keys alone or by a change of the key set, since the
      last interruption and the last whole-scope reload. */
  lemma RestingScopeReread(keys: seq<WatchKey>, turns: seq<Turn>)
    requires AtRest(After(keys, turns))
    ensures var trace := After(keys, turns).trace;
            AllServed(trace) <==> !(exists k: nat :: LossAt(trace, k) && QuietSince(trace, k))
  {
    var s := After(keys, turns);
    assert Accounted(s) && Settled(s);
    DebtMeans(s.trace);
    LostMeans(s.trace);
  }

  /** At most one reload is in flight, and results shown come from a reload of this scope. */
  lemma ReloadsOfThisScope(keys: seq<WatchKey>, turns: seq<Turn>)
    ensures var s := After(keys, turns);
            && |s.reloads| <= 1
            && (s.reloadWarnings != [] ==> s.warningsScope == s.scopeGeneration)
            && (s.reloadError.Some? ==> s.errorScope == s.scopeGeneration)
  {
    assert Loop(After(keys, turns));
  }

  /** A message on a channel that was closed, or after stop, changes nothing. */
  lemma ClosedChannelIsSilent(keys: seq<WatchKey>, turns: seq<Turn>, c: nat, msg: Message, readError: Option<string>)
    requires var s := After(keys, turns); c < |s.channels| && (s.channels[c].closes > 0 || s.disposed)
    ensures var s := After(keys, turns); OnMessage(s, c, msg, readError) == s
  {
    assert ChannelInv(After(keys, turns), c);
  }

  lemma ReportedConnected(s: State, readError: Option<string>)
    requires Shaped(s) && Report(s, readError).status in {AllConnected, Partial}
    ensures EveryPermittedConnected(s)
  {
  }

  /** A published status of `connected` or `partial` is true: the stream of every permitted watch
      is open and last reported that it is connected. */
  lemma ConnectedIsTrue(keys: seq<WatchKey>, turns: seq<Turn>, readError: Option<string>, i: nat)
    requires var s := After(keys, turns); !s.disposed && i < |s.watches| && !Denied(s.registrations[s.watches[i]])
    requires Report(After(keys, turns), readError).status in {AllConnected, Partial}
    ensures var s := After(keys, turns);
            var phase := s.registrations[s.watches[i]].phase;
            && (phase.Opening? || phase.Running?) && phase.channel < |s.channels|
            && s.channels[phase.channel].closes == 0
            && s.channels[phase.channel].report.Some?
            && s.channels[phase.channel].report.value.Status?
            && s.channels[phase.channel].report.value.status == Connected
  {
    var s := After(keys, turns);
    var w := s.watches[i];
    ReportedConnected(s, readError);
    ConnectedWatch(s, w);
  }

  lemma ConnectedWatch(s: State, w: nat)
    requires Streams(s) && w < |s.registrations| && s.registrations[w].connected && !s.registrations[w].phase.Closed?
    ensures var phase := s.registrations[w].phase;
            && (phase.Opening? || phase.Running?) && phase.channel < |s.channels|
            && s.channels[phase.channel].closes == 0
            && s.channels[phase.channel].report.Some?
            && s.channels[phase.channel].report.value.Status?
            && s.channels[phase.channel].report.value.status == Connected
  {
    assert WatchInv(s, w);
    assert ChannelInv(s, s.registrations[w].phase.channel);
  }

  /** A watch recorded as running on a stream that reported its end shows why: a stream that
      stopped is never recorded as running, and a final error or refusal is on display exactly
      when its message is not empty. */
  lemma NoSilentDeadStream(keys: seq<WatchKey>, turns: seq<Turn>, w: nat, c: nat, id: StreamId)
    requires var s := After(keys, turns);
             w < |s.registrations| && s.registrations[w].phase == Running(c, id) && c < |s.channels|
    ensures var s := After(keys, turns);
            match s.channels[c].report
            case Some(Stopped) => false
            case Some(Error(message)) => !s.registrations[w].connected && (HasText(s.registrations[w].error) <==> message != "")
            case Some(Status(Forbidden, message)) => !s.registrations[w].connected && (Denied(s.registrations[w]) <==> message != "")
            case _ => true
  {
    assert WatchInv(After(keys, turns), w);
  }

  /** The recovery timer is armed until stop, and when it fires it leaves no permitted watch idle. */
  lemma RecoveryRestarts(keys: seq<WatchKey>, turns: seq<Turn>, handle: nat, readError: Option<string>)
    ensures var s := After(keys, turns); s.armed == (if s.disposed then {} else {s.timer})
    ensures var s := After(keys, turns);
            handle in s.armed ==>
              var r := OnTick(s, handle, readError);
              && r.watches == s.watches && |r.registrations| == |s.registrations|
              && (forall w :: w in r.watches ==>
                    Denied(r.registrations[w]) || r.registrations[w].phase.Opening? || r.registrations[w].phase.Running?)
  {
    var s := After(keys, turns);
    assert Loop(s);
    if handle in s.armed {
      RestartsAll(s, handle);
      TickFrame(s, handle, readError);
    }
  }

  lemma RestartsAll(s: State, handle: nat)
    requires Inv(s) && !s.disposed
    ensures var s1 := StartAll(s.(armed := s.armed - {handle}), s.watches);
            && s1.watches == s.watches && |s1.registrations| == |s.registrations|
            && (forall w :: w in s.watches ==>
                  Denied(s1.registrations[w]) || s1.registrations[w].phase.Opening? || s1.registrations[w].phase.Running?)
  {
    var s0 := s.(armed := s.armed - {handle});
    StartAllLoop(s0, s0.watches);
    forall w | w in s.watches
      ensures w < |s.registrations| && !s.registrations[w].phase.Closed?
    {
      var i :| 0 <= i < |s.watches| && s.watches[i] == w;
    }
  }

  // ---------------------------------------------------------------- update

  function Signatures(keys: seq<WatchKey>): set<string> {
    set i | 0 <= i < |keys| :: Signature(keys[i])
  }

  ghost predicate DistinctSignatures(keys: seq<WatchKey>) {
    forall i, j :: 0 <= i < j < |keys| ==> Signature(keys[i]) != Signature(keys[j])
  }

  function Keys(regs: seq<Watch>, ws: seq<nat>): (r: seq<WatchKey>)
    requires Within(ws, |regs|)
    ensures |r| == |ws| && forall i :: 0 <= i < |ws| ==> r[i] == regs[ws[i]].key
  {
    seq(|ws|, i requires 0 <= i < |ws| => regs[ws[i]].key)
  }

  lemma SignaturesConcat(a: seq<WatchKey>, b: seq<WatchKey>)
    ensures Signatures(a + b) == Signatures(a) + Signatures(b)
  {
    forall x | x in Signatures(a) + Signatures(b) ensures x in Signatures(a + b) {
      if x in Signatures(a) {
        var i :| 0 <= i < |a| && Signature(a[i]) == x;
        assert (a + b)[i] == a[i];
      } else {
        var i :| 0 <= i < |b| && Signature(b[i]) == x;
        assert (a + b)[|a| + i] == b[i];
      }
    }
  }

  lemma SignatureOfOne(key: WatchKey)
    ensures Signatures([key]) == {Signature(key)}
  {
    assert Signature([key][0]) in Signatures([key]);
  }

  lemma {:induction false} PutSignatures(m: seq<WatchKey>, key: WatchKey)
    requires DistinctSignatures(m)
    ensures DistinctSignatures(Put(m, key))
    ensures Signatures(Put(m, key)) == Signatures(m) + {Signature(key)}
  {
    if m == [] {
      SignatureOfOne(key);
    } else if Signature(m[0]) == Signature(key) {
      assert m == [m[0]] + m[1..];
      SignaturesConcat([m[0]], m[1..]);
      SignaturesConcat([key], m[1..]);
      SignatureOfOne(key);
      SignatureOfOne(m[0]);
    } else {
      PutSignatures(m[1..], key);
      assert m == [m[0]] + m[1..];
      SignaturesConcat([m[0]], m[1..]);
      SignaturesConcat([m[0]], Put(m[1..], key));
      assert Signature(m[0]) !in Signatures(m[1..]);
      forall j | 0 <= j < |Put(m[1..], key)| ensures Signature(Put(m[1..], key)[j]) != Signature(m[0]) {
        assert Signature(Put(m[1..], key)[j]) in Signatures(Put(m[1..], key));
      }
    }
  }

  lemma {:induction false} WantedSignatures(keys: seq<WatchKey>)
    ensures DistinctSignatures(Wanted(keys)) && Signatures(Wanted(keys)) == Signatures(keys)
  {
    if keys != [] {
      var before := keys[..|keys| - 1];
      WantedSignatures(before);
      PutSignatures(Wanted(before), keys[|keys| - 1]);
      assert keys == before + [keys[|keys| - 1]];
      SignaturesConcat(before, [keys[|keys| - 1]]);
      SignatureOfOne(keys[|keys| - 1]);
    }
  }

  lemma {:induction false} WithoutSignatures(m: seq<WatchKey>, signature: string)
    requires DistinctSignatures(m)
    ensures DistinctSignatures(Without(m, signature))
    ensures Signatures(Without(m, signature)) == Signatures(m) - {signature}
  {
    if m == [] {
    } else {
      assert m == [m[0]] + m[1..];
      SignaturesConcat([m[0]], m[1..]);
      assert Signature(m[0]) !in Signatures(m[1..]);
      if Signature(m[0]) != signature {
        var rest := Without(m[1..], signature);
        WithoutSignatures(m[1..], signature);
        SignaturesConcat([m[0]], rest);
        forall j | 0 <= j < |rest| ensures Signature(rest[j]) != Signature(m[0]) {
          assert Signature(rest[j]) in Signatures(rest);
        }
      }
    }
  }

  /** The kept watches and the keys still wanted share out the wanted signatures. */
  ghost predicate SharedOut(regs: seq<Watch>, kept: seq<nat>, left: seq<WatchKey>, wanted: seq<WatchKey>)
    requires Within(kept, |regs|)
  {
    && DistinctSignatures(Keys(regs, kept)) && DistinctSignatures(left)
    && Signatures(Keys(regs, kept)) !! Signatures(left)
    && Signatures(Keys(regs, kept)) + Signatures(left) == Signatures(wanted)
  }

  lemma HasSignature(m: seq<WatchKey>, signature: string)
    ensures Has(m, signature) <==> signature in Signatures(m)
  {
  }

  /** Keeping a watch moves its signature from the keys still wanted to the kept ones. */
  lemma ShareOne(regs: seq<Watch>, kept: seq<nat>, left: seq<WatchKey>, wanted: seq<WatchKey>, w: nat)
    requires Within(kept, |regs|) && w < |regs| && SharedOut(regs, kept, left, wanted)
    requires Has(left, Signature(regs[w].key))
    ensures SharedOut(regs, kept + [w], Without(left, Signature(regs[w].key)), wanted)
    ensures Signatures(Keys(regs, kept + [w])) == Signatures(Keys(regs, kept)) + {Signature(regs[w].key)}
  {
    var signature := Signature(regs[w].key);
    HasSignature(left, signature);
    WithoutSignatures(left, signature);
    KeptSignatures(regs, kept, w);
  }

  /** Every listed watch whose signature is wanted shares it with a kept watch. */
  ghost predicate Represented(regs: seq<Watch>, ws: seq<nat>, kept: seq<nat>, wanted: seq<WatchKey>)
    requires Within(ws, |regs|) && Within(kept, |regs|)
  {
    forall i :: 0 <= i < |ws| && Signature(regs[ws[i]].key) in Signatures(wanted) ==>
      Signature(regs[ws[i]].key) in Signatures(Keys(regs, kept))
  }

  /** The sweep's kept watches and remaining keys share out the wanted signatures, and represent the swept watches. */
  ghost predicate Shared(regs: seq<Watch>, swept: Sweep, ws: seq<nat>, wanted: seq<WatchKey>) {
    && Within(swept.kept, |regs|) && Within(ws, |regs|)
    && SharedOut(regs, swept.kept, swept.wanted, wanted) && Represented(regs, ws, swept.kept, wanted)
  }

  lemma {:induction false} SweepShares(s: State, wanted: seq<WatchKey>, ws: seq<nat>)
    requires Shaped(s) && PhasesOpened(s) && Within(ws, |s.registrations|) && DistinctIndices(ws)
    requires DistinctSignatures(wanted)
    ensures Shared(s.registrations, SweepAll(s, wanted, ws), ws, wanted)
  {
    if ws != [] {
      var prefix, w := ws[..|ws| - 1], ws[|ws| - 1];
      SweepShares(s, wanted, prefix);
      SweptKey(s, wanted, prefix, w);
      assert ws == prefix + [w];
      SharesNext(s.registrations, SweepAll(s, wanted, prefix), prefix, w, wanted);
    } else {
      NothingSwept(s.registrations, wanted, s);
    }
  }

  lemma NothingSwept(regs: seq<Watch>, wanted: seq<WatchKey>, s: State)
    requires DistinctSignatures(wanted)
    ensures Shared(regs, Sweep(s, wanted, []), [], wanted)
  {
  }

  lemma SweptKey(s: State, wanted: seq<WatchKey>, ws: seq<nat>, w: nat)
    requires Shaped(s) && PhasesOpened(s) && Within(ws, |s.registrations|) && DistinctIndices(ws)
    requires w < |s.registrations|
    ensures SweepAll(s, wanted, ws).state.registrations[w].key == s.registrations[w].key
  {
    SweepEffect(s, wanted, ws);
  }

  lemma SharesNext(regs: seq<Watch>, before: Sweep, prefix: seq<nat>, w: nat, wanted: seq<WatchKey>)
    requires Shaped(before.state) && PhasesOpened(before.state) && |before.state.registrations| == |regs| && w < |regs|
    requires Shared(regs, before, prefix, wanted)
    requires before.state.registrations[w].key == regs[w].key
    ensures Shared(regs, SweepOne(before, w), prefix + [w], wanted)
  {
    HasSignature(before.wanted, Signature(regs[w].key));
    if Has(before.wanted, Signature(regs[w].key)) {
      ShareOne(regs, before.kept, before.wanted, wanted, w);
    }
  }

  lemma KeptSignatures(regs: seq<Watch>, kept: seq<nat>, w: nat)
    requires Within(kept, |regs|) && w < |regs|
    requires DistinctSignatures(Keys(regs, kept)) && Signature(regs[w].key) !in Signatures(Keys(regs, kept))
    ensures DistinctSignatures(Keys(regs, kept + [w]))
    ensures Signatures(Keys(regs, kept + [w])) == Signatures(Keys(regs, kept)) + {Signature(regs[w].key)}
  {
    var keys := Keys(regs, kept);
    assert Keys(regs, kept + [w]) == keys + [regs[w].key];
    SignaturesConcat(keys, [regs[w].key]);
    SignatureOfOne(regs[w].key);
    forall j | 0 <= j < |keys| ensures Signature(keys[j]) != Signature(regs[w].key) {
      assert Signature(keys[j]) in Signatures(keys);
    }
  }

  lemma PublishFrame(s: State, readError: Option<string>)
    requires Shaped(s)
    ensures var r := Publish(s, readError);
            r.registrations == s.registrations && r.watches == s.watches && r.channels == s.channels && r.stops == s.stops
  {
  }

  lemma RescopeStarts(swept: Sweep, readError: Option<string>)
    requires Shaped(swept.state) && Within(swept.kept, |swept.state.registrations|)
    ensures var r := Rescope(swept, readError);
            var s3 := StartAll(Rescoped(swept), Indices(|swept.state.registrations|, |swept.wanted|));
            r.registrations == s3.registrations && r.watches == s3.watches
  {
    PublishFrame(StartAll(Rescoped(swept), Indices(|swept.state.registrations|, |swept.wanted|)), readError);
  }

  lemma RescopedRegistrations(swept: Sweep)
    requires Shaped(swept.state) && Within(swept.kept, |swept.state.registrations|)
    ensures var s, r := swept.state, Rescoped(swept);
            && r.watches == swept.kept + Indices(|s.registrations|, |swept.wanted|)
            && (forall w :: 0 <= w < |s.registrations| ==> r.registrations[w] == s.registrations[w])
            && (forall i :: 0 <= i < |swept.wanted| ==> r.registrations[|s.registrations| + i].key == swept.wanted[i])
  {
  }

  /** What update leaves registered. */
  lemma RescopeEffect(swept: Sweep, readError: Option<string>)
    requires Shaped(swept.state) && Within(swept.kept, |swept.state.registrations|)
    ensures var r := Rescope(swept, readError);
            var s := swept.state;
            && r.watches == swept.kept + Indices(|s.registrations|, |swept.wanted|)
            && |r.registrations| == |s.registrations| + |swept.wanted|
            && (forall w :: 0 <= w < |s.registrations| ==> r.registrations[w] == s.registrations[w])
            && (forall i :: 0 <= i < |swept.wanted| ==> r.registrations[|s.registrations| + i].key == swept.wanted[i])
  {
    var added := Indices(|swept.state.registrations|, |swept.wanted|);
    RescopeStarts(swept, readError);
    RescopedRegistrations(swept);
    StartAllLoop(Rescoped(swept), added);
    assert forall w :: 0 <= w < |swept.state.registrations| ==> w !in added;
  }

  lemma RescopeSignatures(s: State, keys: seq<WatchKey>, readError: Option<string>)
    requires Inv(s) && !s.disposed && PhasesOpened(s)
    ensures var r := OnUpdate(s, keys, readError);
            var swept := SweepAll(s, Wanted(keys), s.watches);
            Shaped(r) && Keys(r.registrations, r.watches) == Keys(s.registrations, swept.kept) + swept.wanted
  {
    UpdateInv(s, keys, readError);
    SweepEffect(s, Wanted(keys), s.watches);
    RescopeKeys(SweepAll(s, Wanted(keys), s.watches), s.registrations, readError);
  }

  lemma RescopeKeys(swept: Sweep, regs: seq<Watch>, readError: Option<string>)
    requires Shaped(swept.state) && Within(swept.kept, |swept.state.registrations|) && Shaped(Rescope(swept, readError))
    requires |regs| == |swept.state.registrations|
    requires forall w :: 0 <= w < |regs| ==> regs[w].key == swept.state.registrations[w].key
    ensures var r := Rescope(swept, readError);
            Keys(r.registrations, r.watches) == Keys(regs, swept.kept) + swept.wanted
  {
    var r := Rescope(swept, readError);
    RescopeEffect(swept, readError);
    var left, right := Keys(r.registrations, r.watches), Keys(regs, swept.kept) + swept.wanted;
    forall i | 0 <= i < |left| ensures left[i] == right[i] {
      if i >= |swept.kept| {
        assert r.watches[i] == |regs| + (i - |swept.kept|);
      }
    }
  }

  /** After update the registered signatures are exactly those of the given keys, once each. */
  lemma UpdateRegistersExactly(s: State, keys: seq<WatchKey>, readError: Option<string>)
    requires Inv(s) && !s.disposed && PhasesOpened(s)
    ensures var r := OnUpdate(s, keys, readError);
            && Shaped(r)
            && DistinctSignatures(Keys(r.registrations, r.watches))
            && Signatures(Keys(r.registrations, r.watches)) == Signatures(keys)
  {
    var swept := SweepAll(s, Wanted(keys), s.watches);
    WantedSignatures(keys);
    SweepShares(s, Wanted(keys), s.watches);
    RescopeSignatures(s, keys, readError);
    var kept := Keys(s.registrations, swept.kept);
    SignaturesConcat(kept, swept.wanted);
    forall i, j | 0 <= i < |kept| && 0 <= j < |swept.wanted| ensures Signature(kept[i]) != Signature(swept.wanted[j]) {
      assert Signature(kept[i]) in Signatures(kept) && Signature(swept.wanted[j]) in Signatures(swept.wanted);
    }
  }

  /** A watch that stays registered keeps its phase and what it reported; one that does not is closed. */
  lemma UpdateKeepsWatches(s: State, keys: seq<WatchKey>, readError: Option<string>, i: nat)
    requires Inv(s) && !s.disposed && PhasesOpened(s) && i < |s.watches|
    ensures var r := OnUpdate(s, keys, readError);
            var w := s.watches[i];
            && |s.registrations| <= |r.registrations|
            && (w in r.watches ==> r.registrations[w] == s.registrations[w])
            && (w !in r.watches ==> r.registrations[w].phase == Closed)
  {
    var swept := SweepAll(s, Wanted(keys), s.watches);
    SweepEffect(s, Wanted(keys), s.watches);
    RescopeEffect(swept, readError);
    RescopedMember(swept.kept, |s.registrations|, |swept.wanted|, s.watches[i]);
  }

  /** A signature that stays wanted keeps a watch it had. */
  lemma UpdateKeepsSignatures(s: State, keys: seq<WatchKey>, readError: Option<string>, i: nat)
    requires Inv(s) && !s.disposed && PhasesOpened(s) && i < |s.watches|
    requires Signature(s.registrations[s.watches[i]].key) in Signatures(keys)
    ensures exists v :: v in s.watches && v in OnUpdate(s, keys, readError).watches
              && Signature(s.registrations[v].key) == Signature(s.registrations[s.watches[i]].key)
  {
    var swept := SweepAll(s, Wanted(keys), s.watches);
    WantedSignatures(keys);
    SweepShares(s, Wanted(keys), s.watches);
    SweepKept(s, Wanted(keys), s.watches);
    RescopeEffect(swept, readError);
    var kept := Keys(s.registrations, swept.kept);
    var j :| 0 <= j < |kept| && Signature(kept[j]) == Signature(s.registrations[s.watches[i]].key);
    assert OnUpdate(s, keys, readError).watches[j] == swept.kept[j] && swept.kept[j] in s.watches;
  }
}
