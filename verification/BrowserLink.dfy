/**
 The reconnecting session link of src/lib/browser-runtime.ts: the socket, its retry timer and the
 grace period of a dropped session. Requests, storage and channel payloads are left out; their
 outcomes are events.
 */
module BrowserLink {
  import opened Wrappers

  /** SocketLink. A socket is named by the order in which it was opened, a timer by its handle. */
  datatype Link =
    | NoLink
    | Socket(id: nat, since: Option<int>)
    | Down(downSince: int)
    | Retry(timer: nat, downSince: int)

  datatype SessionStatus = Checking | Login | Connecting | Ready | Moved

  datatype AuthMode = Token | CloudflareAccess | Oidc

  datatype ReadyState = Opening | Open | Closing | Closed

  /** A reconnect timer: when it is due and the downSince its callback captured. */
  datatype Alarm = Alarm(due: int, downSince: int)

  datatype State = State(
    link: Link,
    status: SessionStatus,
    resumeToken: bool,            // a resume token that is not empty is held
    graceSeconds: int,
    mode: Option<AuthMode>,
    sockets: seq<ReadyState>,     // every socket opened so far
    armed: map<nat, Alarm>,       // reconnect timers the host holds
    timers: nat,
    checks: nat)                  // sign-in checks in flight

  const INITIAL := State(NoLink, Checking, false, 0, None, [], map[], 0, 0)

  const RETRY_DELAY: int := 1000

  function Min(a: int, b: int): int { if a <= b then a else b }

  predicate IsCurrent(s: State, id: nat) { s.link.Socket? && s.link.id == id }

  /** The drop the grace period counts from when a socket closes at `now`. */
  function FirstDrop(link: Link, now: int): int
    requires link.Socket?
  {
    if link.since.Some? then link.since.value else now
  }

  /** Socket ids are those of opened sockets. */
  ghost predicate Shaped(s: State) { s.link.Socket? ==> s.link.id < |s.sockets| }

  function CancelRetry(s: State): State {
    if s.link.Retry? then s.(armed := s.armed - {s.link.timer}, link := Down(s.link.downSince)) else s
  }

  function CloseSocket(sockets: seq<ReadyState>, id: nat): seq<ReadyState>
    requires id < |sockets|
  {
    if sockets[id] == Closed then sockets else sockets[id := Closing]
  }

  function CloseLink(s: State): State
    requires Shaped(s)
  {
    match s.link
    case Retry(timer, _) => s.(link := NoLink, armed := s.armed - {timer})
    case Socket(id, _) => s.(link := NoLink, sockets := CloseSocket(s.sockets, id))
    case _ => s.(link := NoLink)
  }

  function DownSince(link: Link): Option<int> {
    match link
    case NoLink => None
    case Socket(_, since) => since
    case Down(t) => Some(t)
    case Retry(_, t) => Some(t)
  }

  function ConnectSocket(s: State): State
    requires Shaped(s)
  {
    if s.link.Socket? && (s.sockets[s.link.id] == Open || s.sockets[s.link.id] == Opening) then s
    else if s.status != Ready || !s.resumeToken then s
    else s.(armed := if s.link.Retry? then s.armed - {s.link.timer} else s.armed,
            sockets := s.sockets + [Opening],
            link := Socket(|s.sockets|, DownSince(s.link)))
  }

  function ReturnToSignIn(s: State): State
    requires Shaped(s)
  {
    CloseLink(s).(resumeToken := false, status := Login)
  }

  function ScheduleReconnect(s: State, now: int): State {
    if !s.link.Down? || !s.resumeToken then s
    else
      var graceMs := s.graceSeconds * 1000;
      var elapsedMs := now - s.link.downSince;
      if graceMs <= 0 || elapsedMs >= graceMs then s.(link := NoLink, resumeToken := false, status := Login)
      else s.(link := Retry(s.timers, s.link.downSince),
              armed := s.armed[s.timers := Alarm(now + Min(RETRY_DELAY, graceMs - elapsedMs), s.link.downSince)],
              timers := s.timers + 1)
  }

  /** onopen of socket `id`. */
  function OnOpen(s: State, id: nat): State
    requires id < |s.sockets|
  {
    var s1 := s.(sockets := s.sockets[id := Open]);
    if IsCurrent(s, id) then s1.(link := Socket(id, None), status := Ready) else s1
  }

  /** onmessage of socket `id` with a session_moved message. */
  function OnMoved(s: State, id: nat): State
    requires id < |s.sockets|
  {
    if IsCurrent(s, id)
    then s.(link := Socket(id, None), status := Moved, sockets := CloseSocket(s.sockets, id))
    else s
  }

  /** onclose of socket `id`. */
  function OnClose(s: State, id: nat, now: int): State
    requires id < |s.sockets|
  {
    var s1 := s.(sockets := s.sockets[id := Closed]);
    if !IsCurrent(s, id) then s1
    else if s.status != Ready then s1.(link := NoLink)
    else
      var s2 := s1.(link := Down(s.link.since.GetOr(now)));
      if s.mode == Some(Oidc) then s2.(checks := s.checks + 1)
      else ScheduleReconnect(s2, now)
  }

  /** The callback of timer `handle`, which assigns `link` without looking at it. */
  function OnTimer(s: State, handle: nat): State
    requires handle in s.armed
  {
    ConnectSocket(s.(armed := s.armed - {handle}, link := Down(s.armed[handle].downSince)))
  }

  /** checkOidcAuthenticationAfterSocketClose once its request settles. */
  function OnChecked(s: State, signedOut: bool, now: int): State
    requires Shaped(s) && s.checks > 0
  {
    var s1 := s.(checks := s.checks - 1);
    if signedOut then ReturnToSignIn(s1)
    else if s.status != Ready then s1
    else ScheduleReconnect(s1, now)
  }

  /** The rest of postSession once the server accepted the session. */
  function OnSession(s: State, graceSeconds: int, tokenHasText: bool): State
    requires Shaped(s)
  {
    var s1 := s.(resumeToken := tokenHasText);
    var s2 := if s.link.Socket? then s1.(link := Socket(s.link.id, None)) else CloseLink(s1);
    ConnectSocket(s2.(status := Ready, graceSeconds := graceSeconds))
  }

  datatype Event =
    | ModeLearned(mode: AuthMode)
    | TokenRead(present: bool)
    | TokenRefused
    | SessionRequested(fromUser: bool)
    | SessionAccepted(graceSeconds: int, tokenHasText: bool)
    | SessionRefused(moved: bool)
    | SignedOut
    | SocketOpened(id: nat)
    | SocketMoved(id: nat)
    | SocketClosing(id: nat)
    | SocketClosed(id: nat, now: int)
    | TimerFired(handle: nat)
    | SignInChecked(signedOut: bool, now: int)

  /** The stored token is read once, before any session. A socket opens, starts closing and
      closes at most once each, in that order; an armed timer may fire. */
  ghost predicate Possible(s: State, e: Event) {
    match e
    case TokenRead(_) => s.status == Checking
    case SocketOpened(id) => id < |s.sockets| && s.sockets[id] == Opening
    case SocketMoved(id) => id < |s.sockets| && s.sockets[id] != Opening
    case SocketClosing(id) => id < |s.sockets| && s.sockets[id] != Closed
    case SocketClosed(id, _) => id < |s.sockets| && s.sockets[id] != Closed
    case TimerFired(h) => h in s.armed
    case SignInChecked(_, _) => s.checks > 0
    case _ => true
  }

  function Step(s: State, e: Event): State
    requires Shaped(s) && Possible(s, e)
  {
    match e
    case ModeLearned(mode) => s.(mode := Some(mode))
    case TokenRead(present) => s.(resumeToken := present)
    case TokenRefused => s.(resumeToken := false)
    case SessionRequested(fromUser) => (if fromUser then CancelRetry(s) else s).(status := Connecting)
    case SessionAccepted(graceSeconds, tokenHasText) => OnSession(s, graceSeconds, tokenHasText)
    case SessionRefused(moved) => s.(status := if moved then Moved else Login)
    case SignedOut => ReturnToSignIn(s)
    case SocketOpened(id) => OnOpen(s, id)
    case SocketMoved(id) => OnMoved(s, id)
    case SocketClosing(id) => s.(sockets := s.sockets[id := Closing])
    case SocketClosed(id, now) => OnClose(s, id, now)
    case TimerFired(h) => OnTimer(s, h)
    case SignInChecked(signedOut, now) => OnChecked(s, signedOut, now)
  }

  // ---------------------------------------------------------------- every run

  /** The only armed timer is the one a retry link stores, due within the grace period. */
  ghost predicate TimerInv(s: State) {
    if s.link.Retry? then
      && s.armed.Keys == {s.link.timer}
      && s.armed[s.link.timer].downSince == s.link.downSince
      && s.armed[s.link.timer].due <= s.link.downSince + s.graceSeconds * 1000
    else s.armed == map[]
  }

  /** No socket but the current one is open or opening. */
  ghost predicate SocketInv(s: State) {
    && Shaped(s)
    && (forall id :: 0 <= id < |s.sockets| && (s.sockets[id] == Open || s.sockets[id] == Opening) ==> IsCurrent(s, id))
  }

  /** A ready session is connected, or a retry or a sign-in check will reconnect it. */
  ghost predicate ReadyInv(s: State) {
    s.status == Ready && s.resumeToken ==>
      s.link.Socket? || s.link.Retry? || (s.link.Down? && s.checks > 0)
  }

  ghost predicate Inv(s: State) {
    TimerInv(s) && SocketInv(s) && ReadyInv(s)
  }

  lemma MinusOnly<V>(m: map<nat, V>, k: nat)
    requires m.Keys <= {k}
    ensures m - {k} == map[]
  {
  }

  lemma ConnectKeeps(s: State)
    requires SocketInv(s) && TimerInv(s)
    ensures SocketInv(ConnectSocket(s)) && TimerInv(ConnectSocket(s))
    ensures s.status == Ready && s.resumeToken ==> ConnectSocket(s).link.Socket?
  {
    if s.link.Retry? { MinusOnly(s.armed, s.link.timer); }
  }

  lemma CloseLinkKeeps(s: State)
    requires SocketInv(s) && TimerInv(s)
    ensures SocketInv(CloseLink(s)) && TimerInv(CloseLink(s)) && CloseLink(s).link == NoLink
  {
    if s.link.Retry? { MinusOnly(s.armed, s.link.timer); }
  }

  lemma ScheduleKeeps(s: State, now: int)
    requires SocketInv(s) && TimerInv(s)
    ensures SocketInv(ScheduleReconnect(s, now)) && TimerInv(ScheduleReconnect(s, now))
    ensures var r := ScheduleReconnect(s, now);
            s.link.Down? && s.resumeToken ==> r.link.Retry? || (r.link == NoLink && r.status == Login)
  {
  }

  /** The timer and the sockets are those of the link. */
  ghost predicate Sound(s: State) { TimerInv(s) && SocketInv(s) }

  lemma CancelKeeps(s: State)
    requires Sound(s)
    ensures Sound(CancelRetry(s)) && CancelRetry(s).armed == map[] && DownSince(CancelRetry(s).link) == DownSince(s.link)
  {
    if s.link.Retry? { MinusOnly(s.armed, s.link.timer); }
  }

  lemma AcceptedInv(s: State, graceSeconds: int, tokenHasText: bool)
    requires Inv(s)
    ensures Inv(OnSession(s, graceSeconds, tokenHasText))
  {
    var s1 := s.(resumeToken := tokenHasText);
    CloseLinkKeeps(s1);
    var s2 := if s.link.Socket? then s1.(link := Socket(s.link.id, None)) else CloseLink(s1);
    ConnectKeeps(s2.(status := Ready, graceSeconds := graceSeconds));
  }

  lemma ClosedInv(s: State, id: nat, now: int)
    requires Inv(s) && Possible(s, SocketClosed(id, now))
    ensures Inv(OnClose(s, id, now))
  {
    if IsCurrent(s, id) && s.status == Ready {
      ScheduleKeeps(s.(sockets := s.sockets[id := Closed], link := Down(s.link.since.GetOr(now))), now);
    }
  }

  lemma TimerFiredInv(s: State, handle: nat)
    requires Inv(s) && handle in s.armed
    ensures Inv(OnTimer(s, handle))
  {
    MinusOnly(s.armed, handle);
    ConnectKeeps(s.(armed := s.armed - {handle}, link := Down(s.armed[handle].downSince)));
  }

  lemma CheckedInv(s: State, signedOut: bool, now: int)
    requires Inv(s) && s.checks > 0
    ensures Inv(OnChecked(s, signedOut, now))
  {
    CloseLinkKeeps(s.(checks := s.checks - 1));
    ScheduleKeeps(s.(checks := s.checks - 1), now);
  }

  lemma SocketInvKept(s: State, e: Event)
    requires Inv(s) && Possible(s, e) && (e.SocketOpened? || e.SocketMoved? || e.SocketClosing?)
    ensures Inv(Step(s, e))
  {
  }

  lemma StepInv(s: State, e: Event)
    requires Inv(s) && Possible(s, e)
    ensures Inv(Step(s, e))
  {
    match e
    case SessionRequested(_) => CancelKeeps(s);
    case SessionAccepted(graceSeconds, tokenHasText) => AcceptedInv(s, graceSeconds, tokenHasText);
    case SignedOut => CloseLinkKeeps(s);
    case SocketOpened(_) => SocketInvKept(s, e);
    case SocketMoved(_) => SocketInvKept(s, e);
    case SocketClosing(_) => SocketInvKept(s, e);
    case SocketClosed(id, now) => ClosedInv(s, id, now);
    case TimerFired(h) => TimerFiredInv(s, h);
    case SignInChecked(signedOut, now) => CheckedInv(s, signedOut, now);
    case _ =>
  }

  ghost function After(events: seq<Event>): (s: State)
    ensures Inv(s)
  {
    if events == [] then INITIAL
    else
      var s := After(events[..|events| - 1]);
      var e := events[|events| - 1];
      if Possible(s, e) then StepInv(s, e); Step(s, e) else s
  }

  /** When a reconnect timer fires the link still is the retry that armed it, so the assignment in
      its callback loses nothing, and it was due within the grace period of the drop. */
  lemma TimerFindsItsRetry(events: seq<Event>, handle: nat)
    requires handle in After(events).armed
    ensures var s := After(events);
            && s.link == Retry(handle, s.armed[handle].downSince)
            && s.armed[handle].due <= s.link.downSince + s.graceSeconds * 1000
            && s.armed.Keys == {handle}
  {
    assert TimerInv(After(events));
  }

  /** A session shown as ready is never stranded. */
  lemma ReadySessionReconnects(events: seq<Event>)
    requires After(events).status == Ready && After(events).resumeToken
    ensures var s := After(events); s.link.Socket? || s.armed != map[] || s.checks > 0
  {
    assert ReadyInv(After(events)) && TimerInv(After(events));
  }

  /** At most one socket is open or opening, and it is the current one. */
  lemma OneLiveSocket(events: seq<Event>, i: nat, j: nat)
    requires i < |After(events).sockets| && j < |After(events).sockets|
    requires After(events).sockets[i] in {Opening, Open} && After(events).sockets[j] in {Opening, Open}
    ensures i == j && IsCurrent(After(events), i)
  {
    assert SocketInv(After(events));
  }

  /** Events of a replaced socket change nothing but that socket. */
  lemma ReplacedSocketIsSilent(s: State, e: Event, id: nat)
    requires Shaped(s) && Possible(s, e) && !IsCurrent(s, id)
    requires e == SocketOpened(id) || e == SocketMoved(id) || e == SocketClosing(id) || (e.SocketClosed? && e.id == id)
    ensures Step(s, e) == s.(sockets := Step(s, e).sockets)
    ensures forall other :: 0 <= other < |s.sockets| && other != id ==> Step(s, e).sockets[other] == s.sockets[other]
  {
  }

  // ---------------------------------------------------------------- downSince

  /** A new session, or news from the current socket that it opened or that the session moved,
      ends the count from the first drop. */
  ghost predicate Resets(s: State, e: Event) {
    || e.SessionAccepted?
    || ((e.SocketOpened? || e.SocketMoved?) && IsCurrent(s, e.id))
  }

  lemma StepKeepsDownSince(s: State, e: Event, t: int)
    requires Inv(s) && Possible(s, e) && !Resets(s, e)
    requires s.link == NoLink || DownSince(s.link) == Some(t)
    ensures Step(s, e).link == NoLink || DownSince(Step(s, e).link) == Some(t)
  {
    if e.TimerFired? {
      assert s.link == Retry(e.handle, s.armed[e.handle].downSince);
    }
  }

  ghost function Continue(s: State, events: seq<Event>): (r: State)
    requires Inv(s)
    ensures Inv(r)
    decreases |events|
  {
    if events == [] then s
    else if Possible(s, events[0]) then StepInv(s, events[0]); Continue(Step(s, events[0]), events[1..])
    else Continue(s, events[1..])
  }

  ghost predicate NoReset(s: State, events: seq<Event>)
    requires Inv(s)
    decreases |events|
  {
    if events == [] then true
    else if Possible(s, events[0]) then
      StepInv(s, events[0]);
      !Resets(s, events[0]) && NoReset(Step(s, events[0]), events[1..])
    else NoReset(s, events[1..])
  }

  /** downSince stays at the first drop through any retries, failed sockets and timers, until a
      socket opens, the session moves or a new session begins, or the link is given up. */
  lemma {:induction false} DownSinceSurvives(s: State, events: seq<Event>, t: int)
    requires Inv(s) && NoReset(s, events)
    requires s.link == NoLink || DownSince(s.link) == Some(t)
    ensures var r := Continue(s, events); r.link == NoLink || DownSince(r.link) == Some(t)
    decreases |events|
  {
    if events != [] {
      if Possible(s, events[0]) {
        StepInv(s, events[0]);
        StepKeepsDownSince(s, events[0], t);
        DownSinceSurvives(Step(s, events[0]), events[1..], t);
      } else {
        DownSinceSurvives(s, events[1..], t);
      }
    }
  }

  /** The state after the current socket of a ready session closed at `now`. */
  ghost function Dropped(s: State, id: nat, now: int): (r: State)
    requires Inv(s) && IsCurrent(s, id) && s.sockets[id] != Closed
    ensures Inv(r)
  {
    StepInv(s, SocketClosed(id, now));
    Step(s, SocketClosed(id, now))
  }

  /** So from the first drop at `now`, every retry is due by the end of the grace period that
      began then, however many sockets were tried since. */
  lemma RetriesStayInGrace(s: State, id: nat, now: int, events: seq<Event>, handle: nat)
    requires Inv(s) && IsCurrent(s, id) && s.sockets[id] != Closed && s.status == Ready && s.link.since.None?
    requires NoReset(Dropped(s, id, now), events)
    requires handle in Continue(Dropped(s, id, now), events).armed
    ensures var r := Continue(Dropped(s, id, now), events);
            r.link == Retry(handle, now) && r.armed[handle].due <= now + r.graceSeconds * 1000
  {
    DownSinceSurvives(Dropped(s, id, now), events, now);
    assert TimerInv(Continue(Dropped(s, id, now), events));
  }

  /** No drop is counted for the socket `id` while it is the current one. */
  ghost predicate Uncounted(s: State, id: nat) {
    id < |s.sockets| && (IsCurrent(s, id) ==> s.link.since.None?)
  }

  lemma StepStaysUncounted(s: State, e: Event, id: nat)
    requires Inv(s) && Possible(s, e) && Uncounted(s, id)
    ensures Uncounted(Step(s, e), id)
  {
  }

  lemma {:induction false} StaysUncounted(s: State, events: seq<Event>, id: nat)
    requires Inv(s) && Uncounted(s, id)
    ensures Uncounted(Continue(s, events), id)
    decreases |events|
  {
    if events != [] {
      if Possible(s, events[0]) {
        StepInv(s, events[0]);
        StepStaysUncounted(s, events[0], id);
        StaysUncounted(Step(s, events[0]), events[1..], id);
      } else {
        StaysUncounted(s, events[1..], id);
      }
    }
  }

  /** The state after the current socket opened. */
  ghost function AfterOpening(s: State, id: nat): (r: State)
    requires Inv(s) && IsCurrent(s, id) && s.sockets[id] == Opening
    ensures Inv(r) && r.link == Socket(id, None) && r.status == Ready && r.sockets == s.sockets[id := Open]
  {
    StepInv(s, SocketOpened(id));
    Step(s, SocketOpened(id))
  }

  /** A socket that opened starts the count anew: whenever it closes later as the current one, in a ready session with
      a token, some grace and no sign-in to check, a retry is armed that counts from this very drop. */
  lemma OpenedThenDropped(s: State, id: nat, events: seq<Event>, now: int)
    requires Inv(s) && IsCurrent(s, id) && s.sockets[id] == Opening
    requires var r := Continue(AfterOpening(s, id), events);
             && IsCurrent(r, id) && r.sockets[id] != Closed
             && r.status == Ready && r.resumeToken && r.graceSeconds > 0 && r.mode != Some(Oidc)
    ensures var d := Step(Continue(AfterOpening(s, id), events), SocketClosed(id, now));
            && d.link.Retry? && d.link.downSince == now
            && d.link.timer in d.armed && now < d.armed[d.link.timer].due <= now + 1000
            && d.status == Ready && d.resumeToken
  {
    StaysUncounted(AfterOpening(s, id), events, id);
  }

  /** A drop after the whole grace period ends the session instead of retrying. */
  lemma GraceEnds(s: State, now: int)
    requires s.link.Down? && s.resumeToken
    ensures var r := ScheduleReconnect(s, now);
            if now < s.link.downSince + s.graceSeconds * 1000 && s.graceSeconds > 0
            then r.link.Retry? && r.resumeToken && now < r.armed[r.link.timer].due <= now + 1000
            else r.link == NoLink && !r.resumeToken && r.status == Login && r.armed == s.armed
  {
  }

  // ---------------------------------------------------------------- the module's variables

  class SessionLink {
    var link: Link
    var status: SessionStatus
    var resumeToken: bool
    var graceSeconds: int
    var mode: Option<AuthMode>
    var sockets: seq<ReadyState>
    var armed: map<nat, Alarm>
    var timers: nat
    var checks: nat

    ghost function Snapshot(): State
      reads this
    {
      State(link, status, resumeToken, graceSeconds, mode, sockets, armed, timers, checks)
    }

    ghost predicate Valid()
      reads this
    {
      Inv(Snapshot())
    }

    constructor ()
      ensures Valid() && Snapshot() == INITIAL
    {
      link, status, resumeToken, graceSeconds, mode := NoLink, Checking, false, 0, None;
      sockets, armed, timers, checks := [], map[], 0, 0;
    }

    /** No timer is left, and the first drop is still known. */
    method Cancel()
      requires Sound(Snapshot())
      modifies this`armed, this`link
      ensures Sound(Snapshot()) && Snapshot() == CancelRetry(old(Snapshot()))
      ensures armed == map[] && !link.Retry? && DownSince(link) == DownSince(old(link))
    {
      CancelKeeps(Snapshot());
      if link.Retry? {
        armed := armed - {link.timer};
        link := Down(link.downSince);
      }
    }

    /** Neither a live socket nor a timer is left. */
    method CloseCurrent()
      requires Sound(Snapshot())
      modifies this`armed, this`link, this`sockets
      ensures Sound(Snapshot()) && Snapshot() == CloseLink(old(Snapshot()))
      ensures link == NoLink && armed == map[]
      ensures forall id :: 0 <= id < |sockets| ==> sockets[id] == Closing || sockets[id] == Closed
    {
      CloseLinkKeeps(Snapshot());
      var previous := link;
      link := NoLink;
      if previous.Retry? {
        armed := armed - {previous.timer};
      }
      if previous.Socket? && sockets[previous.id] != Closed {
        sockets := sockets[previous.id := Closing];
      }
    }

    /** A ready session has a socket afterwards, and one that was down still counts from its first drop. */
    method Connect()
      requires Sound(Snapshot())
      modifies this`armed, this`link, this`sockets
      ensures Sound(Snapshot()) && Snapshot() == ConnectSocket(old(Snapshot()))
      ensures status == Ready && resumeToken ==> link.Socket? && sockets[link.id] in {Opening, Open} && armed == map[]
      ensures DownSince(link) == DownSince(old(link))
    {
      ConnectKeeps(Snapshot());
      if link.Socket? && (sockets[link.id] == Open || sockets[link.id] == Opening) {
        return;
      }
      if status != Ready || !resumeToken {
        return;
      }
      var downSince := DownSince(link);
      if link.Retry? {
        armed := armed - {link.timer};
      }
      link := Socket(|sockets|, downSince);
      sockets := sockets + [Opening];
    }

    /** Within the grace period of the first drop a retry is armed, due in a second or at its end; after it the session is given up. */
    method Schedule(now: int)
      requires Sound(Snapshot())
      modifies this`armed, this`link, this`timers, this`resumeToken, this`status
      ensures Sound(Snapshot()) && Snapshot() == ScheduleReconnect(old(Snapshot()), now)
      ensures old(link).Down? && old(resumeToken) ==>
                var grace := graceSeconds * 1000;
                if now < old(link).downSince + grace && grace > 0
                then link.Retry? && link.downSince == old(link).downSince && armed.Keys == {link.timer}
                     && armed[link.timer].due == (if now + 1000 <= link.downSince + grace then now + 1000 else link.downSince + grace)
                else link == NoLink && !resumeToken && status == Login && armed == map[]
    {
      ScheduleKeeps(Snapshot(), now);
      if !link.Down? || !resumeToken {
        return;
      }
      var downSince := link.downSince;
      var graceMs := graceSeconds * 1000;
      var elapsedMs := now - downSince;
      if graceMs <= 0 || elapsedMs >= graceMs {
        link := NoLink;
        resumeToken := false;
        status := Login;
        return;
      }
      armed := armed[timers := Alarm(now + Min(RETRY_DELAY, graceMs - elapsedMs), downSince)];
      link := Retry(timers, downSince);
      timers := timers + 1;
    }

    method Opened(id: nat)
      requires Valid() && Possible(Snapshot(), SocketOpened(id))
      modifies this
      ensures Valid() && Snapshot() == Step(old(Snapshot()), SocketOpened(id))
      ensures sockets == old(sockets)[id := Open]
      ensures old(link).Socket? && old(link).id == id ==>
                link.Socket? && link.id == id && DownSince(link) == None && status == Ready
      ensures !(old(link).Socket? && old(link).id == id) ==> link == old(link) && status == old(status)
    {
      StepInv(Snapshot(), SocketOpened(id));
      sockets := sockets[id := Open];
      if !(link.Socket? && link.id == id) {
        return;
      }
      link := Socket(id, None);
      status := Ready;
    }

    method SessionMoved(id: nat)
      requires Valid() && Possible(Snapshot(), SocketMoved(id))
      modifies this
      ensures Valid() && Snapshot() == Step(old(Snapshot()), SocketMoved(id))
      ensures old(link).Socket? && old(link).id == id ==>
                DownSince(link) == None && status == Moved && sockets[id] in {Closing, Closed} && armed == map[]
      ensures !(old(link).Socket? && old(link).id == id) ==> link == old(link) && status == old(status) && sockets == old(sockets)
    {
      StepInv(Snapshot(), SocketMoved(id));
      if !(link.Socket? && link.id == id) {
        return;
      }
      link := Socket(id, None);
      status := Moved;
      if sockets[id] != Closed {
        sockets := sockets[id := Closing];
      }
    }

    method CloseReported(id: nat, now: int)
      requires Valid() && Possible(Snapshot(), SocketClosed(id, now))
      modifies this
      ensures Valid() && Snapshot() == Step(old(Snapshot()), SocketClosed(id, now))
      ensures sockets == old(sockets)[id := Closed]
      ensures !(old(link).Socket? && old(link).id == id) ==> link == old(link) && status == old(status) && armed == old(armed)
      ensures old(link).Socket? && old(link).id == id && old(status) != Ready ==> link == NoLink && armed == map[] && status == old(status)
      ensures old(link).Socket? && old(link).id == id && old(status) == Ready && mode == Some(Oidc) ==>
                link == Down(FirstDrop(old(link), now)) && checks == old(checks) + 1 && armed == map[]
      ensures old(link).Socket? && old(link).id == id && old(status) == Ready && mode != Some(Oidc) && old(resumeToken) ==>
                var since := FirstDrop(old(link), now);
                if now < since + graceSeconds * 1000 && graceSeconds > 0
                then link.Retry? && link.downSince == since && armed.Keys == {link.timer} && status == Ready
                     && now < armed[link.timer].due <= now + 1000 && armed[link.timer].due <= since + graceSeconds * 1000
                else link == NoLink && !resumeToken && status == Login && armed == map[]
    {
      StepInv(Snapshot(), SocketClosed(id, now));
      sockets := sockets[id := Closed];
      if !(link.Socket? && link.id == id) {
        return;
      }
      if status != Ready {
        link := NoLink;
        return;
      }
      link := Down(if link.since.Some? then link.since.value else now);
      if mode == Some(Oidc) {
        checks := checks + 1;
        return;
      }
      Schedule(now);
    }

    method TimerFires(handle: nat)
      requires Valid() && Possible(Snapshot(), TimerFired(handle))
      modifies this
      ensures Valid() && Snapshot() == Step(old(Snapshot()), TimerFired(handle))
      ensures armed == map[] && DownSince(link) == Some(old(armed)[handle].downSince)
      ensures status == Ready && resumeToken ==> link.Socket? && link.id == |old(sockets)| && sockets == old(sockets) + [Opening]
    {
      StepInv(Snapshot(), TimerFired(handle));
      MinusOnly(armed, handle);
      var downSince := armed[handle].downSince;
      armed := armed - {handle};
      link := Down(downSince);
      Connect();
    }

    /** The session is over: no link, no timer, no live socket and no token. */
    method ReturnToLogin()
      requires Sound(Snapshot())
      modifies this`armed, this`link, this`sockets, this`resumeToken, this`status
      ensures Valid() && Snapshot() == ReturnToSignIn(old(Snapshot()))
      ensures link == NoLink && armed == map[] && !resumeToken && status == Login
      ensures forall id :: 0 <= id < |sockets| ==> sockets[id] == Closing || sockets[id] == Closed
    {
      CloseCurrent();
      resumeToken := false;
      status := Login;
    }

    method SignInAnswered(signedOut: bool, now: int)
      requires Valid() && Possible(Snapshot(), SignInChecked(signedOut, now))
      modifies this
      ensures Valid() && Snapshot() == Step(old(Snapshot()), SignInChecked(signedOut, now))
      ensures checks == old(checks) - 1
      ensures signedOut ==> link == NoLink && armed == map[] && !resumeToken && status == Login
      ensures !signedOut && old(status) != Ready ==> link == old(link) && status == old(status) && armed == old(armed)
      ensures !signedOut && old(status) == Ready && old(link).Down? && old(resumeToken) ==>
                link == NoLink || (link.Retry? && link.downSince == old(link).downSince && armed[link.timer].due <= now + 1000)
    {
      StepInv(Snapshot(), SignInChecked(signedOut, now));
      checks := checks - 1;
      if signedOut {
        ReturnToLogin();
        return;
      }
      if status == Ready {
        Schedule(now);
      }
    }

    /** loginToBrowserServer and takeOverBrowserSession up to their request. */
    method RequestSession(fromUser: bool)
      requires Valid()
      modifies this
      ensures Valid() && Snapshot() == Step(old(Snapshot()), SessionRequested(fromUser))
      ensures status == Connecting && DownSince(link) == DownSince(old(link)) && (fromUser ==> armed == map[])
    {
      StepInv(Snapshot(), SessionRequested(fromUser));
      if fromUser {
        Cancel();
      }
      status := Connecting;
    }

    /** The rest of postSession once the server accepted the session. */
    method AcceptSession(grace: int, tokenHasText: bool)
      requires Valid()
      modifies this
      ensures Valid() && Snapshot() == Step(old(Snapshot()), SessionAccepted(grace, tokenHasText))
      ensures status == Ready && graceSeconds == grace && resumeToken == tokenHasText
      ensures DownSince(link) == None && armed == map[] && (tokenHasText ==> link.Socket? && sockets[link.id] in {Opening, Open})
    {
      StepInv(Snapshot(), SessionAccepted(grace, tokenHasText));
      resumeToken := tokenHasText;
      if link.Socket? {
        link := Socket(link.id, None);
      } else {
        CloseCurrent();
      }
      status := Ready;
      graceSeconds := grace;
      Connect();
    }
  }
}
