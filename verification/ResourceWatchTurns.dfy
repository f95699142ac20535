/**
 What one turn of a watch scope does, in any run: which changes it forwards, how a message changes its watch,
 what it publishes, and what starts, reloads, ticks and stop leave.
 */
module ResourceWatchTurns {
  import opened Wrappers
  import Texts = Text
  import opened ResourceWatch
  import opened ResourceWatchTrace
  import opened ResourceWatchProofs

  /** The state after one more turn. */
  ghost function Then(s: State, turn: Turn): State
    requires Inv(s) && Enabled(s, turn.event)
  {
    StreamsImplyOpened(s);
    Step(s, turn.event, turn.readError)
  }

  lemma ThenIsNext(keys: seq<WatchKey>, turns: seq<Turn>, turn: Turn)
    requires Enabled(After(keys, turns), turn.event)
    ensures After(keys, turns + [turn]) == Then(After(keys, turns), turn)
  {
    assert (turns + [turn])[..|turns|] == turns;
    StreamsImplyOpened(After(keys, turns));
  }

  /** An open channel of a scope that was not stopped is listened to, and no other. */
  lemma OpenIsHeard(s: State, c: nat)
    requires Inv(s) && c < |s.channels|
    ensures Listening(s, c) <==> !s.disposed && s.channels[c].closes == 0
  {
    assert ChannelInv(s, c);
  }

  // ---------------------------------------------------------------- changes

  /** The changes a turn forwards: that of a change message on an open channel, with the key of the channel's watch. */
  ghost function Forwarded(s: State, turn: Turn): seq<WatchKey>
    requires Inv(s) && Enabled(s, turn.event)
  {
    match turn.event
    case MessageArrives(c, ResourceChanged) =>
      if !s.disposed && s.channels[c].closes == 0 then [s.registrations[s.channels[c].watch].key] else []
    case _ => []
  }

  lemma PublishForwardsNothing(s: State, readError: Option<string>)
    requires Shaped(s)
    ensures Publish(s, readError).changes == s.changes
  {
  }

  lemma ReceiveForwards(s: State, c: nat, msg: Message)
    requires Shaped(s) && c < |s.channels|
    ensures Receive(s, c, msg).changes
         == s.changes + if msg.ResourceChanged? then [s.registrations[s.channels[c].watch].key] else []
  {
  }

  lemma MessageForwards(s: State, c: nat, msg: Message, readError: Option<string>)
    requires Inv(s) && c < |s.channels|
    ensures OnMessage(s, c, msg, readError).changes
         == s.changes + Forwarded(s, Turn(MessageArrives(c, msg), readError))
  {
    OpenIsHeard(s, c);
    if Listening(s, c) {
      ReceiveForwards(s, c, msg);
      PublishForwardsNothing(Receive(s, c, msg), readError);
    }
  }

  lemma RescopeForwardsNothing(swept: Sweep, readError: Option<string>)
    requires Shaped(swept.state) && Within(swept.kept, |swept.state.registrations|)
    ensures Rescope(swept, readError).changes == swept.state.changes
  {
    var added := Indices(|swept.state.registrations|, |swept.wanted|);
    StartAllLoop(Rescoped(swept), added);
    PublishForwardsNothing(StartAll(Rescoped(swept), added), readError);
  }

  lemma UpdateForwardsNothing(s: State, keys: seq<WatchKey>, readError: Option<string>)
    requires Inv(s) && PhasesOpened(s)
    ensures OnUpdate(s, keys, readError).changes == s.changes
  {
    if !s.disposed {
      SweepEffect(s, Wanted(keys), s.watches);
      RescopeForwardsNothing(SweepAll(s, Wanted(keys), s.watches), readError);
    }
  }

  lemma StopForwardsNothing(s: State)
    requires Inv(s) && PhasesOpened(s)
    ensures OnStop(s).changes == s.changes
  {
    CloseAllEffect(s.(disposed := true, armed := s.armed - {s.timer}), s.watches);
  }

  lemma TickForwardsNothing(s: State, handle: nat, readError: Option<string>)
    requires Inv(s)
    ensures OnTick(s, handle, readError).changes == s.changes
  {
    var s0 := s.(armed := s.armed - {handle});
    StartAllLoop(s0, s0.watches);
  }

  lemma RefusalForwardsNothing(s: State, c: nat, message: string, readError: Option<string>)
    requires Shaped(s) && c < |s.channels|
    ensures OnRefused(s, c, message, readError).changes == s.changes
  {
    if s.registrations[s.channels[c].watch].phase == Opening(c) {
      PublishForwardsNothing(Refused(s, c, message), readError);
    }
  }

  lemma ReloadForwardsNothing(s: State, outcome: Outcome, readError: Option<string>)
    requires Shaped(s) && s.reloads != []
    ensures OnReloaded(s, s.reloads[0], outcome, readError).changes == s.changes
  {
    PublishForwardsNothing(TakenIn(s, s.reloads[0], outcome), readError);
  }

  lemma TurnForwards(s: State, turn: Turn)
    requires Inv(s) && Enabled(s, turn.event)
    ensures Then(s, turn).changes == s.changes + Forwarded(s, turn)
  {
    StreamsImplyOpened(s);
    match turn.event
    case MessageArrives(c, msg) => MessageForwards(s, c, msg, turn.readError);
    case TimerFires(h) => TickForwardsNothing(s, h, turn.readError);
    case UpdateCalled(keys) => UpdateForwardsNothing(s, keys, turn.readError);
    case StopCalled => StopForwardsNothing(s);
    case StartResolves(_, _) =>
    case StartRejects(c, message) => RefusalForwardsNothing(s, c, message, turn.readError);
    case ReloadSettles(outcome) => ReloadForwardsNothing(s, outcome, turn.readError);
    case CheckReadsCalled => PublishForwardsNothing(s, turn.readError);
  }

  /** In every run a change message on an open channel is forwarded with its watch's key, once and at once; no other
      turn, and none on a closed channel or after stop, forwards anything. */
  lemma ChangesAreForwarded(keys: seq<WatchKey>, turns: seq<Turn>, turn: Turn)
    requires Enabled(After(keys, turns), turn.event)
    ensures var s := After(keys, turns);
            After(keys, turns + [turn]).changes == s.changes +
              match turn.event
              case MessageArrives(c, ResourceChanged) =>
                if !s.disposed && s.channels[c].closes == 0 then [s.registrations[s.channels[c].watch].key] else []
              case _ => []
  {
    ThenIsNext(keys, turns, turn);
    TurnForwards(After(keys, turns), turn);
  }

  // ---------------------------------------------------------------- messages

  /** How a message a watch hears changes it. */
  ghost predicate WatchHears(before: Watch, after: Watch, msg: Message) {
    && after.key == before.key
    && (msg.Stopped? ==> after.phase == Idle) && (!msg.Stopped? ==> after.phase == before.phase)
    && match msg
       case Status(Connected, _) => after.connected && after.permissionWarning.None? && after.error.None?
       case Status(Reconnecting, _) => !after.connected && after.permissionWarning.None? && after.error == before.error
       case Status(Forbidden, why) =>
         !after.connected && after.permissionWarning == Some(why) && after.error == (if why == "" then before.error else None)
       case Error(why) => !after.connected && after.error == Some(why) && after.permissionWarning == before.permissionWarning
       case Stopped => !after.connected && after.error == before.error && after.permissionWarning == before.permissionWarning
       case _ => after == before
  }

  /** The messages after which what the view shows may be stale. */
  predicate Breaks(msg: Message) {
    match msg
    case Status(Connected, _) => false
    case Status(Reconnecting, _) => true
    case Status(Forbidden, why) => why == ""
    case Error(_) => true
    case Stopped => true
    case _ => false
  }

  /** No interruption was noted since. */
  ghost predicate NoneSince(trace: seq<Mark>, from: nat) {
    forall i :: from <= i < |trace| ==> trace[i] != Interrupted
  }

  lemma HearsAsSaid(watch: Watch, msg: Message)
    ensures WatchHears(watch, Heard(watch, msg), msg) && (Interrupts(msg) <==> Breaks(msg))
  {
  }

  lemma ReceivedWatch(s: State, c: nat, msg: Message)
    requires Inv(s) && c < |s.channels| && Listening(s, c)
    ensures var r, w := Receive(s, c, msg), s.channels[c].watch;
            && WatchHears(s.registrations[w], r.registrations[w], msg)
            && (forall v :: 0 <= v < |s.registrations| && v != w ==> r.registrations[v] == s.registrations[v])
            && r.channels[c].closes == (if msg.Stopped? then 1 else 0)
            && r.trace == s.trace + (if Breaks(msg) then [Interrupted] else [])
            && (Breaks(msg) ==> r.needsCatchUp) && r.disposed == s.disposed
  {
    assert ChannelInv(s, c);
    HearsAsSaid(s.registrations[s.channels[c].watch], msg);
  }

  lemma PublishedTrace(s: State, readError: Option<string>)
    requires Shaped(s)
    ensures s.trace <= Publish(s, readError).trace && NoneSince(Publish(s, readError).trace, |s.trace|)
  {
  }

  /** In every run a message on an open channel of a live scope changes its own watch as it says and no other watch;
      an interruption is noted exactly for the messages that break the stream; the end of a stream closes its channel. */
  lemma MessageIsHeard(keys: seq<WatchKey>, turns: seq<Turn>, c: nat, msg: Message, readError: Option<string>)
    requires var s := After(keys, turns); c < |s.channels| && !s.disposed && s.channels[c].closes == 0
    ensures var s, r := After(keys, turns), After(keys, turns + [Turn(MessageArrives(c, msg), readError)]);
            var w := s.channels[c].watch;
            && |r.registrations| == |s.registrations| && |r.channels| == |s.channels|
            && WatchHears(s.registrations[w], r.registrations[w], msg)
            && (forall v :: 0 <= v < |s.registrations| && v != w ==> r.registrations[v] == s.registrations[v])
            && r.channels[c].closes == (if msg.Stopped? then 1 else 0)
            && s.trace + (if Breaks(msg) then [Interrupted] else []) <= r.trace
            && NoneSince(r.trace, |s.trace| + if Breaks(msg) then 1 else 0)
  {
    var s, turn := After(keys, turns), Turn(MessageArrives(c, msg), readError);
    ThenIsNext(keys, turns, turn);
    OpenIsHeard(s, c);
    ReceivedWatch(s, c, msg);
    PublishedTrace(Receive(s, c, msg), readError);
    PublishFrame(Receive(s, c, msg), readError);
  }

  // ---------------------------------------------------------------- what is published

  /** Some permitted watch is not connected. */
  ghost predicate Disconnected(s: State)
    requires Shaped(s)
  {
    exists i :: 0 <= i < |s.watches| && !HasText(s.registrations[s.watches[i]].permissionWarning)
                && !s.registrations[s.watches[i]].connected
  }

  ghost predicate SomePermitted(s: State)
    requires Shaped(s)
  {
    exists i :: 0 <= i < |s.watches| && !HasText(s.registrations[s.watches[i]].permissionWarning)
  }

  /** The warnings on display: those of denied watches and those of the last reload. */
  ghost predicate Warns(s: State, warning: string)
    requires Shaped(s)
  {
    warning in s.reloadWarnings || WatchWarns(s, warning)
  }

  ghost predicate WatchWarns(s: State, warning: string)
    requires Shaped(s)
  {
    exists i :: 0 <= i < |s.watches| && warning != "" && s.registrations[s.watches[i]].permissionWarning == Some(warning)
  }

  /** The error on display is that of the first watch that has one. */
  ghost predicate ShowsError(s: State, error: Option<string>)
    requires Shaped(s)
  {
    match error
    case None => forall i :: 0 <= i < |s.watches| ==> !HasText(s.registrations[s.watches[i]].error)
    case Some(why) => why != "" && exists i :: ShowsErrorAt(s, why, i)
  }

  ghost predicate ShowsErrorAt(s: State, why: string, i: nat)
    requires Shaped(s)
  {
    && i < |s.watches| && s.registrations[s.watches[i]].error == Some(why)
    && forall j :: 0 <= j < i ==> !HasText(s.registrations[s.watches[j]].error)
  }

  /** The published state is that of the scope. */
  ghost predicate Describes(s: State, p: Published, readError: Option<string>)
    requires Shaped(s)
  {
    && p.status == (if Disconnected(s) then Recovering
                    else if !SomePermitted(s) then Polling
                    else if p.warnings != [] then Partial else AllConnected)
    && (p.catchingUp <==> s.needsCatchUp || s.reloading)
    && p.reloadError == (if s.reloadError.Some? then s.reloadError else readError)
    && (forall w :: w in p.warnings <==> Warns(s, w))
    && (forall i, j :: 0 <= i < j < |p.warnings| ==> p.warnings[i] != p.warnings[j])
    && ShowsError(s, p.error)
  }

  lemma {:induction false} WarningsOf(regs: seq<Watch>, ws: seq<nat>, warning: string)
    requires Within(ws, |regs|)
    ensures warning in PermissionWarnings(regs, ws)
       <==> exists i :: 0 <= i < |ws| && warning != "" && regs[ws[i]].permissionWarning == Some(warning)
  {
    if ws != [] {
      WarningsOf(regs, ws[1..], warning);
      assert forall i :: 0 <= i < |ws| - 1 ==> ws[1..][i] == ws[i + 1];
      if i :| 0 <= i < |ws| && warning != "" && regs[ws[i]].permissionWarning == Some(warning) {
        if i > 0 { assert ws[1..][i - 1] == ws[i]; }
      }
      if i :| 0 <= i < |ws[1..]| && warning != "" && regs[ws[1..][i]].permissionWarning == Some(warning) {
        assert ws[i + 1] == ws[1..][i];
      }
    }
  }

  lemma {:induction false} FirstErrorOf(regs: seq<Watch>, ws: seq<nat>)
    requires Within(ws, |regs|)
    ensures match FirstError(regs, ws)
            case None => forall i :: 0 <= i < |ws| ==> !HasText(regs[ws[i]].error)
            case Some(why) =>
              why != "" && exists i :: 0 <= i < |ws| && regs[ws[i]].error == Some(why)
                                       && forall j :: 0 <= j < i ==> !HasText(regs[ws[j]].error)
  {
    if ws != [] && !HasText(regs[ws[0]].error) {
      var rest := ws[1..];
      FirstErrorOf(regs, rest);
      match FirstError(regs, rest)
      case None =>
        forall i | 0 <= i < |ws| ensures !HasText(regs[ws[i]].error) {
          if i > 0 { assert ws[i] == rest[i - 1]; }
        }
      case Some(why) =>
        var i :| 0 <= i < |rest| && regs[rest[i]].error == Some(why) && forall j :: 0 <= j < i ==> !HasText(regs[rest[j]].error);
        assert ws[i + 1] == rest[i];
        forall j | 0 <= j < i + 1 ensures !HasText(regs[ws[j]].error) {
          if j > 0 { assert ws[j] == rest[j - 1]; }
        }
    } else if ws != [] {
      assert regs[ws[0]].error == FirstError(regs, ws);
    }
  }

  lemma ReportDescribes(s: State, readError: Option<string>)
    requires Shaped(s)
    ensures Describes(s, Report(s, readError), readError)
  {
    forall w ensures w in Report(s, readError).warnings <==> Warns(s, w) {
      WarningsOf(s.registrations, s.watches, w);
    }
    ErrorIsShown(s);
    StatusIsSaid(s, readError);
  }

  lemma ErrorIsShown(s: State)
    requires Shaped(s)
    ensures ShowsError(s, FirstError(s.registrations, s.watches))
  {
    FirstErrorOf(s.registrations, s.watches);
    var error := FirstError(s.registrations, s.watches);
    if error.Some? {
      var i :| 0 <= i < |s.watches| && s.registrations[s.watches[i]].error == error
               && forall j :: 0 <= j < i ==> !HasText(s.registrations[s.watches[j]].error);
      assert ShowsErrorAt(s, error.value, i);
    }
  }

  lemma StatusIsSaid(s: State, readError: Option<string>)
    requires Shaped(s)
    ensures var p := Report(s, readError);
            p.status == (if Disconnected(s) then Recovering
                         else if !SomePermitted(s) then Polling
                         else if p.warnings != [] then Partial else AllConnected)
  {
  }

  lemma PublishSays(s: State, readError: Option<string>)
    requires Shaped(s) && !s.disposed
    ensures var r := Publish(s, readError);
            && Shaped(r) && |r.published| == |s.published| + 1 && s.published <= r.published
            && Describes(r, r.published[|s.published|], readError)
  {
    var r := Publish(s, readError);
    ReportDescribes(s, readError);
    SameDescription(s, r, Report(s, readError), readError);
  }

  /** Beginning the catch-up keeps the published state true: it was announced as catching up. */
  lemma SameDescription(s: State, r: State, p: Published, readError: Option<string>)
    requires Shaped(s) && Shaped(r) && Describes(s, p, readError)
    requires r.registrations == s.registrations && r.watches == s.watches
    requires r.reloadError == s.reloadError && r.reloadWarnings == s.reloadWarnings
    requires s.needsCatchUp || s.reloading <==> r.needsCatchUp || r.reloading
    ensures Describes(r, p, readError)
  {
    forall w ensures Warns(r, w) <==> Warns(s, w) {
      assert WatchWarns(r, w) <==> WatchWarns(s, w);
    }
    assert Disconnected(r) <==> Disconnected(s);
    assert SomePermitted(r) <==> SomePermitted(s);
    SameError(s, r, p.error);
  }

  lemma SameError(s: State, r: State, error: Option<string>)
    requires Shaped(s) && Shaped(r) && ShowsError(s, error)
    requires r.registrations == s.registrations && r.watches == s.watches
    ensures ShowsError(r, error)
  {
    if error.Some? {
      var i: nat :| ShowsErrorAt(s, error.value, i);
      assert ShowsErrorAt(r, error.value, i);
    }
  }

  /** Turns after which the scope says how it stands: a heard message, a failed start of the watch's own channel, a
      settled reload and a check of the reads. */
  ghost predicate Speaks(s: State, turn: Turn)
    requires Inv(s) && Enabled(s, turn.event)
  {
    && !s.disposed
    && match turn.event
       case MessageArrives(c, _) => s.channels[c].closes == 0
       case StartRejects(c, _) => s.channels[c].closes == 0
       case ReloadSettles(_) => true
       case CheckReadsCalled => true
       case _ => false
  }

  /** A start is pending on an open channel exactly while its watch is opening on it. */
  lemma PendingIsOpening(s: State, c: nat)
    requires Inv(s) && c < |s.channels| && s.channels[c].call.Pending?
    ensures s.channels[c].closes == 0 <==> s.registrations[s.channels[c].watch].phase == Opening(c)
    ensures s.channels[c].closes == 0 ==> !s.disposed
  {
    assert ChannelInv(s, c) && WatchInv(s, s.channels[c].watch);
  }

  /** One more state was published, and it describes the scope. */
  ghost predicate SaidSince(published: seq<Published>, r: State, readError: Option<string>) {
    && Shaped(r) && |r.published| == |published| + 1 && published <= r.published
    && Describes(r, r.published[|published|], readError)
  }

  lemma SpokenMessage(s: State, c: nat, msg: Message, readError: Option<string>)
    requires Inv(s) && c < |s.channels| && !s.disposed && s.channels[c].closes == 0
    ensures SaidSince(s.published, OnMessage(s, c, msg, readError), readError)
  {
    OpenIsHeard(s, c);
    ReceiveSaysNothing(s, c, msg);
    PublishSays(Receive(s, c, msg), readError);
  }

  lemma ReceiveSaysNothing(s: State, c: nat, msg: Message)
    requires Shaped(s) && c < |s.channels|
    ensures Receive(s, c, msg).published == s.published && Receive(s, c, msg).disposed == s.disposed
  {
  }

  lemma SpokenRefusal(s: State, c: nat, message: string, readError: Option<string>)
    requires Inv(s) && Enabled(s, StartRejects(c, message)) && !s.disposed && s.channels[c].closes == 0
    ensures SaidSince(s.published, OnRefused(s, c, message, readError), readError)
  {
    PendingIsOpening(s, c);
    RefusedKeeps(s, c, message);
    PublishSays(Refused(s, c, message), readError);
  }

  lemma SpokenTurn(s: State, turn: Turn)
    requires Inv(s) && Enabled(s, turn.event) && PhasesOpened(s) && Speaks(s, turn)
    ensures SaidSince(s.published, Step(s, turn.event, turn.readError), turn.readError)
  {
    match turn.event
    case MessageArrives(c, msg) => SpokenMessage(s, c, msg, turn.readError);
    case StartRejects(c, message) => SpokenRefusal(s, c, message, turn.readError);
    case ReloadSettles(outcome) => PublishSays(TakenIn(s, s.reloads[0], outcome), turn.readError);
    case CheckReadsCalled => PublishSays(s, turn.readError);
  }

  /** In every run each of those turns publishes one state, and that state is the truth about the scope after it. */
  lemma SpokenIsTrue(keys: seq<WatchKey>, turns: seq<Turn>, turn: Turn)
    requires Enabled(After(keys, turns), turn.event) && Speaks(After(keys, turns), turn)
    ensures var s, r := After(keys, turns), After(keys, turns + [turn]);
            && |r.published| == |s.published| + 1 && s.published <= r.published
            && Describes(r, r.published[|s.published|], turn.readError)
  {
    ThenIsNext(keys, turns, turn);
    StreamsImplyOpened(After(keys, turns));
    SpokenTurn(After(keys, turns), turn);
  }

  /** Every given key has the signature of a watch the scope already has. */
  ghost predicate AllRegistered(s: State, keys: seq<WatchKey>)
    requires Shaped(s)
  {
    Signatures(keys) <= Signatures(Keys(s.registrations, s.watches))
  }

  lemma KeptAreRegistered(regs: seq<Watch>, kept: seq<nat>, ws: seq<nat>)
    requires Within(kept, |regs|) && Within(ws, |regs|) && forall w :: w in kept ==> w in ws
    ensures Signatures(Keys(regs, kept)) <= Signatures(Keys(regs, ws))
  {
    forall x | x in Signatures(Keys(regs, kept)) ensures x in Signatures(Keys(regs, ws)) {
      var i :| 0 <= i < |kept| && Signature(Keys(regs, kept)[i]) == x;
      assert kept[i] in ws;
      var j :| 0 <= j < |ws| && ws[j] == kept[i];
      assert Signature(Keys(regs, ws)[j]) == x;
    }
  }

  lemma RepresentedSignatures(regs: seq<Watch>, ws: seq<nat>, kept: seq<nat>, wanted: seq<WatchKey>)
    requires Within(kept, |regs|) && Within(ws, |regs|) && Represented(regs, ws, kept, wanted)
    ensures Signatures(Keys(regs, ws)) * Signatures(wanted) <= Signatures(Keys(regs, kept))
  {
  }

  /** The update has keys left to register exactly if some signature is new. */
  lemma NewSignatures(s: State, keys: seq<WatchKey>)
    requires Inv(s) && PhasesOpened(s)
    ensures SweepAll(s, Wanted(keys), s.watches).wanted == [] <==> AllRegistered(s, keys)
  {
    var swept := SweepAll(s, Wanted(keys), s.watches);
    WantedSignatures(keys);
    SweepShares(s, Wanted(keys), s.watches);
    SweepKept(s, Wanted(keys), s.watches);
    KeptAreRegistered(s.registrations, swept.kept, s.watches);
    RepresentedSignatures(s.registrations, s.watches, swept.kept, Wanted(keys));
    if swept.wanted != [] { assert Signature(swept.wanted[0]) in Signatures(swept.wanted); }
  }

  /** What update says when it registers new watches: that it connects, with the warnings of the watches it keeps. */
  ghost predicate Connects(s: State, p: Published)
    requires Shaped(s)
  {
    && p.status == Connecting && p.error == None && p.reloadError == s.reloadError
    && (p.catchingUp <==> s.needsCatchUp || s.reloading)
    && (forall w :: w in p.warnings <==> WatchWarns(s, w))
    && (forall i, j :: 0 <= i < j < |p.warnings| ==> p.warnings[i] != p.warnings[j])
  }

  /** Watches that are not denied add no warnings. */
  lemma {:induction false} WarningsConcat(regs: seq<Watch>, a: seq<nat>, b: seq<nat>)
    requires Within(a, |regs|) && Within(b, |regs|)
    requires forall i :: 0 <= i < |b| ==> !Denied(regs[b[i]])
    ensures Within(a + b, |regs|) && PermissionWarnings(regs, a + b) == PermissionWarnings(regs, a)
  {
    if a != [] {
      WarningsConcat(regs, a[1..], b);
      assert (a + b)[0] == a[0] && (a + b)[1..] == a[1..] + b;
    } else {
      assert a + b == b;
      NoWarnings(regs, b);
    }
  }

  lemma {:induction false} NoWarnings(regs: seq<Watch>, ws: seq<nat>)
    requires Within(ws, |regs|) && forall i :: 0 <= i < |ws| ==> !Denied(regs[ws[i]])
    ensures PermissionWarnings(regs, ws) == []
  {
    if ws != [] { NoWarnings(regs, ws[1..]); }
  }

  lemma AddedAreNotDenied(swept: Sweep)
    requires Shaped(swept.state) && Within(swept.kept, |swept.state.registrations|)
    ensures var added := Indices(|swept.state.registrations|, |swept.wanted|);
            var s := StartAll(Rescoped(swept), added);
            && s.watches == swept.kept + added && Within(added, |s.registrations|) && Within(swept.kept, |s.registrations|)
            && forall i :: 0 <= i < |added| ==> !Denied(s.registrations[added[i]])
  {
    var added := Indices(|swept.state.registrations|, |swept.wanted|);
    StartAllLoop(Rescoped(swept), added);
    AddedAreNew(swept.state.registrations, swept.wanted);
  }

  lemma AddedAreNew(regs: seq<Watch>, keys: seq<WatchKey>)
    ensures Within(Indices(|regs|, |keys|), |regs + RegisterAll(keys)|)
    ensures forall i :: 0 <= i < |keys| ==> !Denied((regs + RegisterAll(keys))[Indices(|regs|, |keys|)[i]])
  {
    forall i | 0 <= i < |keys| ensures !Denied((regs + RegisterAll(keys))[Indices(|regs|, |keys|)[i]]) {
      assert (regs + RegisterAll(keys))[|regs| + i] == Register(keys[i]);
    }
  }

  lemma RescopeSays(swept: Sweep, readError: Option<string>)
    requires Shaped(swept.state) && Within(swept.kept, |swept.state.registrations|) && !swept.state.disposed
    ensures var r := Rescope(swept, readError);
            && Shaped(r) && |r.published| == |swept.state.published| + 1 && swept.state.published <= r.published
            && var p := r.published[|swept.state.published|];
            if swept.wanted == [] then Describes(r, p, readError) else Connects(r, p)
  {
    var added := Indices(|swept.state.registrations|, |swept.wanted|);
    var s := StartAll(Rescoped(swept), added);
    StartAllLoop(Rescoped(swept), added);
    if swept.wanted == [] {
      PublishSays(s, readError);
    } else {
      AddedAreNotDenied(swept);
      forall w ensures w in PermissionWarnings(s.registrations, swept.kept) <==> WatchWarns(s, w) {
        WarningsConcat(s.registrations, swept.kept, added);
        WarningsOf(s.registrations, s.watches, w);
      }
      AnnouncedConnecting(s, swept.kept, readError);
    }
  }

  lemma AnnouncedConnecting(s: State, kept: seq<nat>, readError: Option<string>)
    requires Shaped(s) && Within(kept, |s.registrations|)
    requires forall w :: w in PermissionWarnings(s.registrations, kept) <==> WatchWarns(s, w)
    ensures var r := Announce(s, kept, false, readError);
            && Shaped(r) && |r.published| == |s.published| + 1 && s.published <= r.published
            && Connects(r, r.published[|s.published|])
  {
    var r := Announce(s, kept, false, readError);
    assert forall w :: WatchWarns(r, w) <==> WatchWarns(s, w);
  }

  /** In every run update publishes one state: the truth about the scope if it registers nothing new, else that it connects. */
  lemma UpdateSays(keys: seq<WatchKey>, turns: seq<Turn>, nextKeys: seq<WatchKey>, readError: Option<string>)
    requires !After(keys, turns).disposed
    ensures var s, r := After(keys, turns), After(keys, turns + [Turn(UpdateCalled(nextKeys), readError)]);
            && |r.published| == |s.published| + 1 && s.published <= r.published
            && var p := r.published[|s.published|];
            if AllRegistered(s, nextKeys) then Describes(r, p, readError) else Connects(r, p)
  {
    var s := After(keys, turns);
    ThenIsNext(keys, turns, Turn(UpdateCalled(nextKeys), readError));
    StreamsImplyOpened(s);
    NewSignatures(s, nextKeys);
    SweepEffect(s, Wanted(nextKeys), s.watches);
    RescopeSays(SweepAll(s, Wanted(nextKeys), s.watches), readError);
  }

  // ---------------------------------------------------------------- starts

  /** In every run a start that resolves runs its watch while its channel is open, and is stopped otherwise. */
  lemma ResolvedStart(keys: seq<WatchKey>, turns: seq<Turn>, c: nat, id: StreamId, readError: Option<string>)
    requires Enabled(After(keys, turns), StartResolves(c, id))
    ensures var s, r := After(keys, turns), After(keys, turns + [Turn(StartResolves(c, id), readError)]);
            var w := s.channels[c].watch;
            if s.channels[c].closes == 0
            then r.registrations == s.registrations[w := s.registrations[w].(phase := Running(c, id))] && r.stops == s.stops
            else r.registrations == s.registrations && r.stops == s.stops + multiset{id}
  {
    ThenIsNext(keys, turns, Turn(StartResolves(c, id), readError));
    PendingIsOpening(After(keys, turns), c);
  }

  /** A start that fails while its channel is open idles its watch with the error, closes the channel and is an
      interruption; one whose channel was closed changes nothing of the scope. */
  lemma FailedStart(keys: seq<WatchKey>, turns: seq<Turn>, c: nat, message: string, readError: Option<string>)
    requires Enabled(After(keys, turns), StartRejects(c, message))
    ensures var s, r := After(keys, turns), After(keys, turns + [Turn(StartRejects(c, message), readError)]);
            var w := s.channels[c].watch;
            w < |s.registrations| && if s.channels[c].closes == 0
            then && r.registrations == s.registrations[w := s.registrations[w].(phase := Idle, error := Some(message), connected := false)]
                 && |r.channels| == |s.channels| && r.channels[c].closes == 1 && s.trace + [Interrupted] <= r.trace
            else r == s.(channels := r.channels) && |r.channels| == |s.channels| && r.channels[c].closes == s.channels[c].closes
  {
    var s := After(keys, turns);
    ThenIsNext(keys, turns, Turn(StartRejects(c, message), readError));
    PendingIsOpening(s, c);
    RefusalLeaves(s, c, message, readError);
  }

  lemma RefusalLeaves(s: State, c: nat, message: string, readError: Option<string>)
    requires Inv(s) && Enabled(s, StartRejects(c, message))
    requires s.channels[c].closes == 0 <==> s.registrations[s.channels[c].watch].phase == Opening(c)
    ensures var r, w := OnRefused(s, c, message, readError), s.channels[c].watch;
            if s.channels[c].closes == 0
            then && r.registrations == s.registrations[w := s.registrations[w].(phase := Idle, error := Some(message), connected := false)]
                 && |r.channels| == |s.channels| && r.channels[c].closes == 1 && s.trace + [Interrupted] <= r.trace
            else r == s.(channels := r.channels) && |r.channels| == |s.channels| && r.channels[c].closes == s.channels[c].closes
  {
    if s.channels[c].closes == 0 {
      RefusedKeeps(s, c, message);
      PublishedTrace(Refused(s, c, message), readError);
      PublishFrame(Refused(s, c, message), readError);
    }
  }

  lemma {:induction false} FirstStarts(s: State, n: nat)
    requires Shaped(s) && n <= |s.registrations| && s.channels == [] && !s.disposed
    requires forall i :: 0 <= i < |s.registrations| ==> s.registrations[i].phase.Idle? && !Denied(s.registrations[i])
    ensures var r := StartAll(s, Indices(0, n));
            && |r.channels| == n && r == s.(registrations := r.registrations, channels := r.channels)
            && (forall i :: 0 <= i < n ==> r.channels[i] == Channel(i, Pending, 0, None))
            && (forall i :: 0 <= i < |s.registrations| ==>
                  r.registrations[i] == if i < n then s.registrations[i].(phase := Opening(i)) else s.registrations[i])
  {
    if n > 0 {
      FirstStarts(s, n - 1);
      assert Indices(0, n)[..n - 1] == Indices(0, n - 1);
    }
  }

  /** A new scope says that it connects and has every key's watch opening on a channel of its own. */
  lemma NewScope(keys: seq<WatchKey>)
    ensures var s := Init(keys);
            && s.published == [Published(Connecting, false, None, None, [])]
            && s.watches == Indices(0, |keys|) && |s.registrations| == |keys| == |s.channels| && s.armed == {s.timer}
            && (forall i :: 0 <= i < |keys| ==> s.registrations[i] == Watch(keys[i], Opening(i), false, None, None))
            && (forall i :: 0 <= i < |keys| ==> s.channels[i] == Channel(i, Pending, 0, None))
  {
    var blank := State(false, 0, false, false, None, [], 0,
                       Indices(0, |keys|), RegisterAll(keys), [], multiset{}, [], {}, [], 0, 0, [], [CONNECTING]);
    FirstStarts(blank, |keys|);
  }

  // ---------------------------------------------------------------- ticks and reloads

  ghost predicate DeniedKey(s: State, key: WatchKey)
    requires Shaped(s)
  {
    exists i :: 0 <= i < |s.watches| && s.registrations[s.watches[i]].key == key
                && HasText(s.registrations[s.watches[i]].permissionWarning)
  }

  lemma {:induction false} DeniedKeysOf(regs: seq<Watch>, ws: seq<nat>, key: WatchKey)
    requires Within(ws, |regs|)
    ensures key in DeniedKeys(regs, ws) <==> exists i :: 0 <= i < |ws| && regs[ws[i]].key == key && Denied(regs[ws[i]])
  {
    if ws != [] {
      var rest := ws[1..];
      DeniedKeysOf(regs, rest, key);
      assert forall i :: 0 <= i < |rest| ==> rest[i] == ws[i + 1];
      if i :| 0 <= i < |ws| && regs[ws[i]].key == key && Denied(regs[ws[i]]) {
        if i > 0 { assert rest[i - 1] == ws[i]; }
      }
      if i :| 0 <= i < |rest| && regs[rest[i]].key == key && Denied(regs[rest[i]]) {
        assert ws[i + 1] == rest[i];
      }
    }
  }

  /** The reload a tick begins in a scope with no reload running: of the whole scope while a permitted watch is not
      connected or a read failed; else of exactly the denied keys, if there are any; else of the whole scope if the
      last reload failed; else none. */
  ghost predicate TickReload(s: State, reloads: seq<Reload>, readError: Option<string>)
    requires Shaped(s)
  {
    if Disconnected(s) || HasText(readError) then reloads == [Reload(s.scopeGeneration, None)]
    else if exists key :: DeniedKey(s, key) then
      && |reloads| == 1 && reloads[0].scope == s.scopeGeneration && reloads[0].keys.Some?
      && forall key :: key in reloads[0].keys.value <==> DeniedKey(s, key)
    else reloads == (if HasText(s.reloadError) then [Reload(s.scopeGeneration, None)] else [])
  }

  lemma ConnectedIsNotDisconnected(s: State)
    requires Shaped(s)
    ensures EveryPermittedConnected(s) <==> !Disconnected(s)
  {
  }

  lemma TickBegins(s: State, handle: nat, readError: Option<string>)
    requires Inv(s) && Enabled(s, TimerFires(handle))
    ensures var r := OnTick(s, handle, readError);
            if s.reloading then r.reloads == s.reloads else TickReload(s, r.reloads, readError)
  {
    var s0 := s.(armed := s.armed - {handle});
    TickStarts(s, handle);
    StartAllLoop(s0, s0.watches);
    var s1 := StartAll(s0, s0.watches);
    ConnectedIsNotDisconnected(s);
    SameDeniedKeys(s.registrations, s1.registrations, s.watches);
    RecoveredReload(s, Woken(s1), readError);
  }

  lemma {:induction false} SameDeniedKeys(before: seq<Watch>, after: seq<Watch>, ws: seq<nat>)
    requires Within(ws, |before|) && |before| == |after|
    requires forall w :: 0 <= w < |before| ==> after[w] == before[w].(phase := after[w].phase)
    ensures DeniedKeys(after, ws) == DeniedKeys(before, ws)
  {
    if ws != [] { SameDeniedKeys(before, after, ws[1..]); }
  }

  lemma RecoveredReload(s: State, s2: State, readError: Option<string>)
    requires Inv(s) && !s.disposed && Shaped(s2)
    requires s2.disposed == s.disposed && s2.reloading == s.reloading && s2.reloads == s.reloads
    requires s2.scopeGeneration == s.scopeGeneration && s2.reloadError == s.reloadError
    requires DeniedKeys(s2.registrations, s2.watches) == DeniedKeys(s.registrations, s.watches)
    requires s2.needsCatchUp <==> s.needsCatchUp || Disconnected(s)
    ensures var r := Recovered(s2, readError);
            if s.reloading then r.reloads == s.reloads else TickReload(s, r.reloads, readError)
  {
    ConnectedIsNotDisconnected(s);
    var denied := DeniedKeys(s.registrations, s.watches);
    ChosenReload(s2, denied, readError);
    if !s.reloading {
      forall key ensures key in denied <==> DeniedKey(s, key) {
        DeniedKeysOf(s.registrations, s.watches, key);
      }
      assert (exists key :: DeniedKey(s, key)) <==> denied != [] by {
        if denied != [] { assert DeniedKey(s, denied[0]); }
      }
    }
  }

  lemma ChosenReload(s: State, denied: seq<WatchKey>, readError: Option<string>)
    requires Shaped(s) && !s.disposed && denied == DeniedKeys(s.registrations, s.watches)
    ensures s.reloading ==> Recovered(s, readError).reloads == s.reloads
    ensures !s.reloading ==>
              Recovered(s, readError).reloads == s.reloads +
                if s.needsCatchUp || HasText(readError) then [Reload(s.scopeGeneration, None)]
                else if denied != [] then [Reload(s.scopeGeneration, Some(denied))]
                else if HasText(s.reloadError) then [Reload(s.scopeGeneration, None)] else []
  {
  }

  /** In every run a tick keeps a running reload and otherwise begins the one that is called for. */
  lemma TickReloads(keys: seq<WatchKey>, turns: seq<Turn>, handle: nat, readError: Option<string>)
    requires Enabled(After(keys, turns), TimerFires(handle))
    ensures var s, r := After(keys, turns), After(keys, turns + [Turn(TimerFires(handle), readError)]);
            && (if s.reloading then r.reloads == s.reloads else TickReload(s, r.reloads, readError))
            && (Disconnected(s) ==> r.needsCatchUp)
  {
    var s := After(keys, turns);
    ThenIsNext(keys, turns, Turn(TimerFires(handle), readError));
    TickBegins(s, handle, readError);
    TickStarts(s, handle);
    ConnectedIsNotDisconnected(s);
  }

  /** In every run a reload that settles for the present key set is taken over, one for an earlier key set is not;
      another whole-scope reload follows at once exactly if a connected scope still has something to catch up. */
  lemma SettledReload(keys: seq<WatchKey>, turns: seq<Turn>, outcome: Outcome, readError: Option<string>)
    requires Enabled(After(keys, turns), ReloadSettles(outcome))
    ensures var s, r := After(keys, turns), After(keys, turns + [Turn(ReloadSettles(outcome), readError)]);
            && (if s.reloads[0].scope != s.scopeGeneration
                then r.reloadWarnings == s.reloadWarnings && r.reloadError == s.reloadError
                else match outcome
                     case Loaded(warnings) => r.reloadWarnings == warnings && r.reloadError == None
                     case Failed(message) => r.reloadWarnings == s.reloadWarnings && r.reloadError == Some(message))
            && r.reloads == (if !s.disposed && !Disconnected(s) && s.needsCatchUp then [Reload(s.scopeGeneration, None)] else [])
  {
    var s := After(keys, turns);
    ThenIsNext(keys, turns, Turn(ReloadSettles(outcome), readError));
    ConnectedIsNotDisconnected(s);
    var t := TakenIn(s, s.reloads[0], outcome);
    assert t.reloads == [];
    PublishResults(t, readError);
  }

  lemma PublishResults(s: State, readError: Option<string>)
    requires Shaped(s)
    ensures var r := Publish(s, readError);
            && r.reloadWarnings == s.reloadWarnings && r.reloadError == s.reloadError
            && r.reloads == s.reloads + if !s.disposed && EveryPermittedConnected(s) && s.needsCatchUp && !s.reloading
                                        then [Reload(s.scopeGeneration, None)] else []
  {
  }

  lemma StoppedScope(s: State)
    requires Inv(s)
    ensures PhasesOpened(s)
    ensures var r := OnStop(s);
            && r.disposed && r.armed == {}
            && (forall w :: 0 <= w < |r.registrations| ==> r.registrations[w].phase == Closed)
            && (forall c :: 0 <= c < |r.channels| ==> r.channels[c].closes == 1)
  {
    StopInv(s);
    CloseAllEffect(s.(disposed := true, armed := s.armed - {s.timer}), s.watches);
    var r := OnStop(s);
    forall c | 0 <= c < |r.channels| ensures r.channels[c].closes == 1 {
      assert ChannelInv(r, c);
    }
  }

  /** After stop every channel is closed exactly once, no watch is left and no timer is armed. */
  lemma StopEndsAll(keys: seq<WatchKey>, turns: seq<Turn>, readError: Option<string>)
    ensures var r := After(keys, turns + [Turn(StopCalled, readError)]);
            && r.disposed && r.armed == {}
            && (forall w :: 0 <= w < |r.registrations| ==> r.registrations[w].phase == Closed)
            && (forall c :: 0 <= c < |r.channels| ==> r.channels[c].closes == 1)
  {
    ThenIsNext(keys, turns, Turn(StopCalled, readError));
    StoppedScope(After(keys, turns));
  }

  // ---------------------------------------------------------------- signatures

  /** Kinds, versions, plurals and namespaces hold no colon. */
  predicate Colonless(key: WatchKey) {
    ':' !in key.kind && ':' !in Text(key.apiVersion) && ':' !in Text(key.plural) && ':' !in Text(key.namespace)
  }

  /** Then signatures tell keys apart by kind, version, plural and namespace, a missing one being the empty text. */
  lemma SignaturesTellApart(a: WatchKey, b: WatchKey)
    requires Colonless(a) && Colonless(b)
    ensures Signature(a) == Signature(b)
       <==> && a.kind == b.kind && a.apiVersion.GetOr("") == b.apiVersion.GetOr("")
            && a.plural.GetOr("") == b.plural.GetOr("") && a.namespace.GetOr("") == b.namespace.GetOr("")
  {
    SignaturePieces(a);
    SignaturePieces(b);
  }

  lemma SignaturePieces(key: WatchKey)
    requires Colonless(key)
    ensures Texts.Split(Signature(key), ':') == [key.kind, Text(key.apiVersion), Text(key.plural), Text(key.namespace)]
  {
    FourPieces(key.kind, Text(key.apiVersion), Text(key.plural), Text(key.namespace));
  }

  lemma FourPieces(a: string, b: string, c: string, d: string)
    requires ':' !in a && ':' !in b && ':' !in c && ':' !in d
    ensures Texts.Split(a + ":" + b + ":" + c + ":" + d, ':') == [a, b, c, d]
  {
    var all := [a, b, c, d];
    FourJoined(a, b, c, d);
    forall i | 0 <= i < 4 ensures ':' !in all[i] {}
    Texts.SplitJoin(all, ':');
  }

  lemma FourJoined(a: string, b: string, c: string, d: string)
    ensures Texts.Join([a, b, c, d], ':') == a + ":" + b + ":" + c + ":" + d
  {
    Texts.JoinCons(c, [d], ':');
    Texts.JoinCons(b, [c] + [d], ':');
    Texts.JoinCons(a, [b] + ([c] + [d]), ':');
    assert [a] + ([b] + ([c] + [d])) == [a, b, c, d];
    Colons(a, b, c, d);
  }

  lemma Colons(a: string, b: string, c: string, d: string)
    ensures a + ":" + b + ":" + c + ":" + d == a + [':'] + (b + [':'] + (c + [':'] + d))
  {
  }
}
