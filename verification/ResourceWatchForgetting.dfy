/** How a watch scope can forget an interruption: the failed catch-ups of which nothing is left to see or to retry. */
module ResourceWatchForgetting {
  import opened Wrappers
  import opened ResourceWatch
  import opened ResourceWatchTrace
  import opened ResourceWatchProofs

  /** A connected scope whose whole-scope catch-up runs, with nothing else to catch up. */
  ghost predicate CatchingUp(s: State) {
    && Inv(s) && !s.disposed && EveryPermittedConnected(s) && !s.needsCatchUp
    && s.reloads == [Reload(s.scopeGeneration, None)] && DebtOf(s.trace).Loading?
  }

  /** The catch-up fails: its error is on display. */
  lemma FailureIsShown(s: State, message: string)
    requires CatchingUp(s) && message != ""
    ensures var r := OnReloaded(s, s.reloads[0], Failed(message), None);
            && Inv(r) && !r.disposed && EveryPermittedConnected(r) && !r.needsCatchUp && r.reloads == []
            && r.reloadError == Some(message) && r.trace == s.trace + [Ended(true, Failed(message))]
            && r.timer == s.timer && r.watches == s.watches && r.registrations == s.registrations
            && r.scopeGeneration == s.scopeGeneration
  {
    ReloadedInv(s, Failed(message), None);
  }

  /** With a denied watch the next tick rereads the denied keys alone. */
  lemma DeniedRetry(s: State)
    requires Inv(s) && !s.disposed && EveryPermittedConnected(s) && !s.needsCatchUp && s.reloads == []
    requires HasText(s.reloadError) && DeniedKeys(s.registrations, s.watches) != []
    ensures var r := OnTick(s, s.timer, None);
            && Inv(r) && !r.disposed && EveryPermittedConnected(r) && !r.needsCatchUp
            && r.reloads == [Reload(s.scopeGeneration, Some(DeniedKeys(s.registrations, s.watches)))]
            && r.trace == s.trace + [Began(Some(DeniedKeys(s.registrations, s.watches)), true)]
            && r.scopeGeneration == s.scopeGeneration
  {
    TickInv(s, s.timer, None);
    TickStarts(s, s.timer);
    var s0 := s.(armed := s.armed - {s.timer});
    StartAllLoop(s0, s0.watches);
    var s1 := StartAll(s0, s0.watches);
    SameDenied(s.registrations, s1.registrations, s.watches);
    TickFrame(s, s.timer, None);
  }

  lemma {:induction false} SameDenied(before: seq<Watch>, after: seq<Watch>, ws: seq<nat>)
    requires Within(ws, |before|) && |before| == |after|
    requires forall w :: 0 <= w < |before| ==> after[w] == before[w].(phase := after[w].phase)
    ensures DeniedKeys(after, ws) == DeniedKeys(before, ws)
  {
    if ws != [] { SameDenied(before, after, ws[1..]); }
  }

  /** Its success clears the error. */
  lemma PartialSuccessClears(s: State, denied: seq<WatchKey>, warnings: seq<string>)
    requires Inv(s) && !s.disposed && EveryPermittedConnected(s) && !s.needsCatchUp
    requires s.reloads == [Reload(s.scopeGeneration, Some(denied))]
    ensures var r := OnReloaded(s, s.reloads[0], Loaded(warnings), None);
            Inv(r) && AtRest(r) && r.reloadError == None && r.trace == s.trace + [Ended(true, Loaded(warnings))]
  {
    ReloadedInv(s, Loaded(warnings), None);
  }

  /** The whole course: a catch-up that fails while some watch is denied is retried for the denied keys alone; once
      that succeeds the scope rests without an error, and the interruption it was to make good is forgotten. */
  lemma DeniedRetryForgets(s: State, message: string, warnings: seq<string>)
    requires CatchingUp(s) && message != "" && DeniedKeys(s.registrations, s.watches) != []
    ensures var s1 := OnReloaded(s, s.reloads[0], Failed(message), None);
            && Shaped(s1)
            && var s2 := OnTick(s1, s1.timer, None);
            && Shaped(s2) && s2.reloads != []
            && var s3 := OnReloaded(s2, s2.reloads[0], Loaded(warnings), None);
            Shaped(s3) && AtRest(s3) && DebtOf(s3.trace).Lost? && !AllServed(s3.trace)
  {
    var denied := DeniedKeys(s.registrations, s.watches);
    var s1 := OnReloaded(s, s.reloads[0], Failed(message), None);
    FailureIsShown(s, message);
    DeniedRetry(s1);
    var s2 := OnTick(s1, s1.timer, None);
    PartialSuccessClears(s2, denied, warnings);
    var s3 := OnReloaded(s2, s2.reloads[0], Loaded(warnings), None);
    LostByRetry(s.trace, denied, message, warnings, s3.trace);
  }

  lemma LostByRetry(trace: seq<Mark>, denied: seq<WatchKey>, message: string, warnings: seq<string>, after: seq<Mark>)
    requires DebtOf(trace).Loading? && message != ""
    requires after == trace + [Ended(true, Failed(message))] + [Began(Some(denied), true)] + [Ended(true, Loaded(warnings))]
    ensures DebtOf(after).Lost? && !AllServed(after)
  {
    var t1 := trace + [Ended(true, Failed(message))];
    var t2 := t1 + [Began(Some(denied), true)];
    DebtNext(trace, Ended(true, Failed(message)));
    DebtNext(t1, Began(Some(denied), true));
    DebtNext(t2, Ended(true, Loaded(warnings)));
    DebtMeans(after);
  }

  /** A change of the key set while the catch-up runs has the same effect: its failure is dropped. */
  lemma KeysChangeForgets(s: State, keys: seq<WatchKey>, message: string)
    requires CatchingUp(s) && PhasesOpened(s)
    requires var swept := SweepAll(s, Wanted(keys), s.watches); swept.wanted != [] || |swept.kept| < |s.watches|
    ensures var s1 := OnUpdate(s, keys, None);
            && Shaped(s1) && s1.reloads == s.reloads
            && var s2 := OnReloaded(s1, s1.reloads[0], Failed(message), None);
            s2.reloads == [] && !s2.needsCatchUp && s2.reloadError == None && DebtOf(s2.trace).Lost? && !AllServed(s2.trace)
  {
    var s1 := OnUpdate(s, keys, None);
    UpdateInv(s, keys, None);
    UpdateDuringCatchUp(s, keys);
    LostByChange(s.trace, message);
  }

  lemma LostByChange(trace: seq<Mark>, message: string)
    requires DebtOf(trace).Loading?
    ensures var after := trace + [KeysChanged] + [Ended(false, Failed(message))]; DebtOf(after).Lost? && !AllServed(after)
  {
    DebtNext(trace, KeysChanged);
    DebtNext(trace + [KeysChanged], Ended(false, Failed(message)));
    DebtMeans(trace + [KeysChanged] + [Ended(false, Failed(message))]);
  }

  lemma UpdateDuringCatchUp(s: State, keys: seq<WatchKey>)
    requires CatchingUp(s) && PhasesOpened(s)
    requires var swept := SweepAll(s, Wanted(keys), s.watches); swept.wanted != [] || |swept.kept| < |s.watches|
    ensures var s1 := OnUpdate(s, keys, None);
            && s1.trace == s.trace + [KeysChanged] && s1.reloads == s.reloads && !s1.needsCatchUp && s1.reloading
            && s1.scopeGeneration == s.scopeGeneration + 1 && s1.reloadError == None && !s1.disposed
  {
    SweepEffect(s, Wanted(keys), s.watches);
    var swept := SweepAll(s, Wanted(keys), s.watches);
    StartAllLoop(Rescoped(swept), Indices(|swept.state.registrations|, |swept.wanted|));
  }

  // ---------------------------------------------------------------- a run that forgets

  /** Two watches, each opening on its own channel, and what the scope holds besides. */
  ghost predicate Two(s: State, first: Watch, second: Watch, needs: bool, trace: seq<Mark>) {
    && s.watches == [0, 1] && s.registrations == [first, second]
    && first.phase == Opening(0) && second.phase == Opening(1)
    && |s.channels| == 2 && s.channels[0].watch == 0 && s.channels[1].watch == 1
    && !s.disposed && !s.reloading && s.reloads == [] && s.reloadError == None && s.scopeGeneration == 0
    && s.needsCatchUp == needs && s.trace == trace && s.timer == 1
  }

  function Opened(key: WatchKey, channel: nat): Watch { Watch(key, Opening(channel), false, None, None) }

  lemma TwoReady(s: State, first: Watch, second: Watch, needs: bool, trace: seq<Mark>)
    requires Two(s, first, second, needs, trace)
    ensures Shaped(s) && (EveryPermittedConnected(s) <==> Ready(first) && Ready(second))
  {
    assert s.registrations[s.watches[0]] == first && s.registrations[s.watches[1]] == second;
  }

  lemma InitTwo(a: WatchKey, b: WatchKey)
    ensures Two(Init([a, b]), Opened(a, 0), Opened(b, 1), false, [])
  {
    var blank := State(false, 0, false, false, None, [], 0,
                       Indices(0, 2), RegisterAll([a, b]), [], multiset{}, [], {}, [], 0, 0, [], [CONNECTING]);
    var ws := Indices(0, 2);
    assert ws == [0, 1] && ws[..1] == [0] && ws[..1][..0] == [];
    var one := StartAll(blank, ws[..1]);
    assert StartAll(blank, ws[..1][..0]) == blank;
    assert one == Start(blank, 0);
    assert StartAll(blank, ws) == Start(one, 1);
    assert Start(one, 1).registrations == [Opened(a, 0), Opened(b, 1)];
  }

  /** Access to the first kind is denied: no interruption. */
  lemma HearDenied(s: State, a: WatchKey, b: WatchKey)
    requires Two(s, Opened(a, 0), Opened(b, 1), false, [])
    ensures Shaped(s)
    ensures Two(OnMessage(s, 0, Status(Forbidden, "denied"), None), Denying(a), Opened(b, 1), false, [])
  {
    TwoReady(s, Opened(a, 0), Opened(b, 1), false, []);
    var r := Receive(s, 0, Status(Forbidden, "denied"));
    assert r.registrations == [Denying(a), Opened(b, 1)];
    TwoReady(r, Denying(a), Opened(b, 1), false, []);
  }

  function Denying(key: WatchKey): Watch { Opened(key, 0).(permissionWarning := Some("denied")) }

  function Live(key: WatchKey): Watch { Opened(key, 1).(connected := true) }

  function Broken(key: WatchKey): Watch { Opened(key, 1).(error := Some("lost")) }

  lemma HearConnected(s: State, a: WatchKey, b: WatchKey)
    requires Two(s, Denying(a), Opened(b, 1), false, [])
    ensures Shaped(s) && Two(OnMessage(s, 1, Status(Connected, ""), None), Denying(a), Live(b), false, [])
  {
    TwoReady(s, Denying(a), Opened(b, 1), false, []);
    var r := Receive(s, 1, Status(Connected, ""));
    assert r.registrations == [Denying(a), Live(b)];
  }

  lemma HearLost(s: State, a: WatchKey, b: WatchKey)
    requires Two(s, Denying(a), Live(b), false, [])
    ensures Shaped(s) && Two(OnMessage(s, 1, Error("lost"), None), Denying(a), Broken(b), true, [Interrupted])
  {
    TwoReady(s, Denying(a), Live(b), false, []);
    var r := Receive(s, 1, Error("lost"));
    assert r.registrations == [Denying(a), Broken(b)];
    TwoReady(r, Denying(a), Broken(b), true, [Interrupted]);
  }

  /** The second stream is back: the whole scope is reread. */
  lemma HearBack(s: State, a: WatchKey, b: WatchKey)
    requires Two(s, Denying(a), Broken(b), true, [Interrupted]) && Inv(s)
    ensures var r := OnMessage(s, 1, Status(Connected, ""), None);
            CatchingUp(r) && DeniedKeys(r.registrations, r.watches) != [] && r.timer == 1
  {
    TwoReady(s, Denying(a), Broken(b), true, [Interrupted]);
    MessageInv(s, 1, Status(Connected, ""), None);
    var r := Receive(s, 1, Status(Connected, ""));
    assert r.registrations == [Denying(a), Live(b)];
    TwoReady(r, Denying(a), Live(b), true, [Interrupted]);
    DebtNext([], Interrupted);
    DebtNext([Interrupted], Began(None, true));
    assert [] + [Interrupted] == [Interrupted];
    assert r.registrations[r.watches[0]] == Denying(a);
  }

  lemma AfterNext(keys: seq<WatchKey>, turns: seq<Turn>, event: Event)
    requires Enabled(After(keys, turns), event)
    ensures PhasesOpened(After(keys, turns))
    ensures After(keys, turns + [Turn(event, None)]) == Step(After(keys, turns), event, None)
  {
    assert (turns + [Turn(event, None)])[..|turns|] == turns;
    StreamsImplyOpened(After(keys, turns));
  }

  function Hears(channel: nat, msg: Message): seq<Turn> { [Turn(MessageArrives(channel, msg), None)] }

  /** The first kind is denied; the second connects, breaks and is back. */
  function Interruption(): seq<Turn> {
    [] + Hears(0, Status(Forbidden, "denied")) + Hears(1, Status(Connected, "")) + Hears(1, Error("lost"))
  }

  lemma InterruptedRun(a: WatchKey, b: WatchKey)
    ensures Two(After([a, b], Interruption()), Denying(a), Broken(b), true, [Interrupted])
  {
    var keys := [a, b];
    InitTwo(a, b);
    HearDenied(After(keys, []), a, b);
    AfterNext(keys, [], MessageArrives(0, Status(Forbidden, "denied")));
    var one := [] + Hears(0, Status(Forbidden, "denied"));
    HearConnected(After(keys, one), a, b);
    AfterNext(keys, one, MessageArrives(1, Status(Connected, "")));
    var two := one + Hears(1, Status(Connected, ""));
    HearLost(After(keys, two), a, b);
    AfterNext(keys, two, MessageArrives(1, Error("lost")));
  }

  /** The reread fails, its retry for the denied kind succeeds. */
  function Forgetting(): seq<Turn> {
    Interruption() + Hears(1, Status(Connected, "")) + [Turn(ReloadSettles(Failed("unavailable")), None)]
    + [Turn(TimerFires(1), None)] + [Turn(ReloadSettles(Loaded([])), None)]
  }

  /** After that run the scope rests, shows no error, and has never reread what the interruption made stale. */
  lemma ForgettingRun(a: WatchKey, b: WatchKey)
    ensures var s := After([a, b], Forgetting());
            AtRest(s) && !AllServed(s.trace)
  {
    var keys := [a, b];
    InterruptedRun(a, b);
    var back := Interruption() + Hears(1, Status(Connected, ""));
    HearBack(After(keys, Interruption()), a, b);
    AfterNext(keys, Interruption(), MessageArrives(1, Status(Connected, "")));
    ForgetsFrom(keys, back, "unavailable", []);
  }

  lemma ForgetsFrom(keys: seq<WatchKey>, turns: seq<Turn>, message: string, warnings: seq<string>)
    requires var s := After(keys, turns);
             CatchingUp(s) && DeniedKeys(s.registrations, s.watches) != [] && s.timer == 1 && message != ""
    ensures var s := After(keys, turns + [Turn(ReloadSettles(Failed(message)), None)] + [Turn(TimerFires(1), None)]
                                 + [Turn(ReloadSettles(Loaded(warnings)), None)]);
            AtRest(s) && !AllServed(s.trace)
  {
    var s := After(keys, turns);
    DeniedRetryForgets(s, message, warnings);
    FailureIsShown(s, message);
    AfterNext(keys, turns, ReloadSettles(Failed(message)));
    var failed := turns + [Turn(ReloadSettles(Failed(message)), None)];
    AfterNext(keys, failed, TimerFires(1));
    var ticked := failed + [Turn(TimerFires(1), None)];
    AfterNext(keys, ticked, ReloadSettles(Loaded(warnings)));
  }
}
