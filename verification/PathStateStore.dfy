/** Writing a window's state once per frame and reading it back: src/lib/path-state.ts. */
module PathStateStore {
  import opened Wrappers
  import opened PathState

  // ---------------------------------------------------------------- where the state is kept

  /** The address's hash and the session's storage entry. */
  datatype Kept = Kept(hash: string, session: Option<string>)

  function ReadPathState(codec: Codec, kept: Kept): Option<Snapshot> {
    var address, stored := ParseHash(kept.hash), DecodeSnapshot(codec, kept.session);
    if address.None? then stored
    else if address.value.workspace.None? then address
    else if IsAt(stored, address.value.workspace.value.workspaceId) then stored
    else address
  }

  /** There is a snapshot, and it is of this workspace. */
  predicate IsAt(snapshot: Option<Snapshot>, workspaceId: string) {
    snapshot.Some? && snapshot.value.workspace.Some? && snapshot.value.workspace.value.workspaceId == workspaceId
  }

  /** writePathState past its timer: the session entry only changes where storage can be written. */
  function WriteKept(codec: Codec, kept: Kept, v: Json, writable: bool): Kept {
    match Sanitize(v)
    case None => kept
    case Some(s) => Kept(Path(s), if writable then Some(codec.stringify(OfSnapshot(s))) else kept.session)
  }

  /** What was written is read back in its sanitized form; the address alone still carries the coarse route. */
  lemma WrittenIsReadBack(codec: Codec, kept: Kept, v: Json, writable: bool)
    requires Sanitize(v).Some?
    ensures writable && Carries(codec, Sanitize(v).value)
            ==> ReadPathState(codec, WriteKept(codec, kept, v, writable)) == Sanitize(v)
    ensures var s, stored := Sanitize(v).value, DecodeSnapshot(codec, kept.session);
            !writable && (s.workspace.None? || !IsAt(stored, s.workspace.value.workspaceId))
            ==> ReadPathState(codec, WriteKept(codec, kept, v, writable)) == Some(Coarse(s))
    ensures var s, stored := Sanitize(v).value, DecodeSnapshot(codec, kept.session);
            !writable && s.workspace.Some? && IsAt(stored, s.workspace.value.workspaceId)
            ==> ReadPathState(codec, WriteKept(codec, kept, v, writable)) == stored
  {
    SanitizedIsClean(v);
    AddressIsParsedBack(Sanitize(v).value);
    if writable {
      if Carries(codec, Sanitize(v).value) { StoredIsRead(codec, Sanitize(v).value); }
    } else {
      AddressIsRead(codec, kept.session, Sanitize(v).value);
    }
  }

  lemma StoredIsRead(codec: Codec, s: Snapshot)
    requires Clean(s) && Carries(codec, s) && ParseHash(Path(s)) == Some(Coarse(s))
    ensures ReadPathState(codec, Kept(Path(s), Some(codec.stringify(OfSnapshot(s))))) == Some(s)
  {
    CleanIsDecoded(codec, s);
  }

  lemma AddressIsRead(codec: Codec, session: Option<string>, s: Snapshot)
    requires ParseHash(Path(s)) == Some(Coarse(s))
    ensures var stored := DecodeSnapshot(codec, session);
            ReadPathState(codec, Kept(Path(s), session))
            == if s.workspace.Some? && IsAt(stored, s.workspace.value.workspaceId) then stored else Some(Coarse(s))
  {
  }

  // ---------------------------------------------------------------- one write per frame

  /** `frame` is whether an animation frame is awaited. */
  datatype State = State(pending: Option<Json>, frame: bool, kept: Kept)

  datatype Event =
    | Schedule(v: Json, hidden: bool, writable: bool)
    | Flush(writable: bool)
    | FrameFires(writable: bool)
    | Write(v: Json, writable: bool)

  function OnWrite(codec: Codec, s: State, v: Json, writable: bool): State {
    State(None, false, WriteKept(codec, s.kept, v, writable))
  }

  function OnFlush(codec: Codec, s: State, writable: bool): State {
    if s.pending.Some? then OnWrite(codec, s, s.pending.value, writable) else s
  }

  function Step(codec: Codec, s: State, e: Event): State {
    match e
    case Schedule(v, hidden, writable) =>
      if hidden then OnFlush(codec, s.(pending := Some(v)), writable) else s.(pending := Some(v), frame := true)
    case Flush(writable) => OnFlush(codec, s, writable)
    case FrameFires(writable) => if s.frame then OnFlush(codec, s, writable) else s
    case Write(v, writable) => OnWrite(codec, s, v, writable)
  }

  function After(codec: Codec, kept: Kept, events: seq<Event>): State {
    if events == [] then State(None, false, kept)
    else Step(codec, After(codec, kept, events[..|events| - 1]), events[|events| - 1])
  }

  /** The snapshot most recently scheduled or written. */
  function LastOffered(events: seq<Event>): Option<Json> {
    if events == [] then None
    else
      match events[|events| - 1]
      case Schedule(v, _, _) => Some(v)
      case Write(v, _) => Some(v)
      case _ => LastOffered(events[..|events| - 1])
  }

  /** The snapshot that waits for a frame: the one scheduled last, if nothing happened since and the page is visible. */
  function Waiting(events: seq<Event>): Option<Json> {
    if events == [] then None
    else
      match events[|events| - 1]
      case Schedule(v, hidden, _) => if hidden then None else Some(v)
      case _ => None
  }

  /** A value handed to writePathState, and whether storage could be written then. */
  datatype Written = Written(v: Json, writable: bool)

  /** Everything the events write, in order. */
  function Writes(events: seq<Event>): seq<Written> {
    if events == [] then []
    else
      var init := events[..|events| - 1];
      Writes(init) + match events[|events| - 1]
                     case Schedule(v, hidden, writable) => if hidden then [Written(v, writable)] else []
                     case Write(v, writable) => [Written(v, writable)]
                     case Flush(writable) => OfWaiting(Waiting(init), writable)
                     case FrameFires(writable) => OfWaiting(Waiting(init), writable)
  }

  function OfWaiting(waiting: Option<Json>, writable: bool): seq<Written> {
    if waiting.Some? then [Written(waiting.value, writable)] else []
  }

  /** The last snapshot among the writes; `stored` asks for one that storage took. */
  function LastGood(writes: seq<Written>, stored: bool): Option<Snapshot> {
    if writes == [] then None
    else
      var last := writes[|writes| - 1];
      if Sanitize(last.v).Some? && (stored ==> last.writable) then Sanitize(last.v)
      else LastGood(writes[..|writes| - 1], stored)
  }

  /** What these writes leave: the address of the last snapshot and the text of the last one stored. */
  function Left(codec: Codec, kept: Kept, writes: seq<Written>): Kept {
    Kept(match LastGood(writes, false)
         case Some(s) => Path(s)
         case None => kept.hash,
         match LastGood(writes, true)
         case Some(s) => Some(codec.stringify(OfSnapshot(s)))
         case None => kept.session)
  }

  /** A snapshot waits exactly while a frame is awaited, and it is the last one offered. */
  lemma {:induction false} WaitingIsTheLast(codec: Codec, kept: Kept, events: seq<Event>)
    ensures var s := After(codec, kept, events);
            && (s.pending.Some? <==> s.frame) && s.pending == Waiting(events)
            && (s.pending.Some? ==> s.pending == LastOffered(events))
  {
    if events != [] { WaitingIsTheLast(codec, kept, events[..|events| - 1]); }
  }

  lemma LastGoodNext(writes: seq<Written>, w: Written, stored: bool)
    ensures LastGood(writes + [w], stored)
         == if Sanitize(w.v).Some? && (stored ==> w.writable) then Sanitize(w.v) else LastGood(writes, stored)
  {
    assert (writes + [w])[..|writes|] == writes;
  }

  lemma LeftNext(codec: Codec, kept: Kept, writes: seq<Written>, w: Written)
    ensures Left(codec, kept, writes + [w]) == WriteKept(codec, Left(codec, kept, writes), w.v, w.writable)
  {
    LastGoodNext(writes, w, false);
    LastGoodNext(writes, w, true);
  }

  /** In every run the address is that of the last snapshot written and storage holds the last one it
      took; a value that is no snapshot leaves both as they were. */
  lemma {:induction false} KeptIsTheLast(codec: Codec, kept: Kept, events: seq<Event>)
    ensures After(codec, kept, events).kept == Left(codec, kept, Writes(events))
  {
    if events != [] {
      var init := events[..|events| - 1];
      KeptIsTheLast(codec, kept, init);
      WaitingIsTheLast(codec, kept, init);
      var before := Writes(init);
      match events[|events| - 1]
      case Schedule(v, hidden, writable) => if hidden { LeftNext(codec, kept, before, Written(v, writable)); } else { assert before + [] == before; }
      case Write(v, writable) => LeftNext(codec, kept, before, Written(v, writable));
      case Flush(writable) => if Waiting(init).Some? { LeftNext(codec, kept, before, Written(Waiting(init).value, writable)); }
      case FrameFires(writable) =>
        if Waiting(init).Some? { LeftNext(codec, kept, before, Written(Waiting(init).value, writable)); }
    }
  }

  /** When nothing waits, what was offered last was written last. */
  lemma {:induction false} LastOfferedIsWritten(events: seq<Event>)
    requires Waiting(events).None? && LastOffered(events).Some?
    ensures Writes(events) != [] && Writes(events)[|Writes(events)| - 1].v == LastOffered(events).value
  {
    var init := events[..|events| - 1];
    match events[|events| - 1]
    case Flush(_) => if Waiting(init).None? { LastOfferedIsWritten(init); }
    case FrameFires(_) => if Waiting(init).None? { LastOfferedIsWritten(init); }
    case _ =>
  }

  /** No interleaving loses the last snapshot: when no frame is awaited and storage took it, reading gives it back. */
  lemma LastOfferedIsReadBack(codec: Codec, kept: Kept, events: seq<Event>)
    requires !After(codec, kept, events).frame
    requires LastOffered(events).Some? && Sanitize(LastOffered(events).value).Some?
    requires Carries(codec, Sanitize(LastOffered(events).value).value)
    requires Writes(events) != [] ==> Writes(events)[|Writes(events)| - 1].writable
    ensures ReadPathState(codec, After(codec, kept, events).kept) == Sanitize(LastOffered(events).value)
  {
    WaitingIsTheLast(codec, kept, events);
    LastOfferedIsWritten(events);
    KeptIsTheLast(codec, kept, events);
    var writes := Writes(events);
    var before, last := writes[..|writes| - 1], writes[|writes| - 1];
    LeftNext(codec, kept, before, last);
    assert writes == before + [last];
    WrittenIsReadBack(codec, Left(codec, kept, before), last.v, true);
  }

  // ---------------------------------------------------------------- the module's variables

  class PathStateWriter {
    const codec: Codec
    var pending: Option<Json>
    var frame: Option<nat>
    var nextFrame: nat
    var kept: Kept

    // What was kept at first, and everything that happened since.
    ghost var initial: Kept
    ghost var events: seq<Event>

    function Now(): State
      reads this
    {
      State(pending, frame.Some?, kept)
    }

    /** The variables are what the events made of them, so every lemma about runs holds of the object. */
    ghost predicate Valid()
      reads this
    {
      && Now() == After(codec, initial, events)
      && pending == Waiting(events) && (frame.Some? <==> pending.Some?)
      && kept == Left(codec, initial, Writes(events))
    }

    constructor (codec: Codec, kept: Kept)
      ensures Valid() && this.codec == codec && initial == kept && events == []
    {
      this.codec, this.pending, this.frame, this.nextFrame, this.kept := codec, None, None, 0, kept;
      initial, events := kept, [];
    }

    /** Records an event whose effect the variables show. */
    ghost method Happened(e: Event)
      requires Now() == Step(codec, After(codec, initial, events), e)
      modifies this`events
      ensures Valid() && events == old(events) + [e]
    {
      assert (events + [e])[..|events|] == events;
      events := events + [e];
      WaitingIsTheLast(codec, initial, events);
      KeptIsTheLast(codec, initial, events);
    }

    /** A visible page only keeps the snapshot for the one frame it awaits; a hidden page writes it at once. */
    method SchedulePathStateWrite(v: Json, hidden: bool, writable: bool)
      requires Valid()
      modifies this
      ensures Valid() && events == old(events) + [Schedule(v, hidden, writable)] && initial == old(initial)
      ensures !hidden ==> pending == Some(v) && frame.Some? && kept == old(kept)
      ensures hidden ==> pending.None? && frame.None?
      ensures hidden && writable && Sanitize(v).Some? && Carries(codec, Sanitize(v).value) ==> ReadPathState(codec, kept) == Sanitize(v)
    {
      pending := Some(v);
      if hidden {
        FlushPending(writable);
        if Sanitize(v).Some? { WrittenIsReadBack(codec, old(kept), v, writable); }
      } else if frame.None? {
        frame := Some(nextFrame);
        nextFrame := nextFrame + 1;
      }
      Happened(Schedule(v, hidden, writable));
    }

    /** Nothing waits afterwards; what waited was written. */
    method FlushPathStateWrite(writable: bool)
      requires Valid()
      modifies this
      ensures Valid() && events == old(events) + [Flush(writable)] && initial == old(initial)
      ensures pending.None? && frame.None?
      ensures old(pending).None? ==> kept == old(kept)
    {
      FlushPending(writable);
      Happened(Flush(writable));
    }

    /** The callback of the awaited frame writes what waits for it, which is what was offered last. */
    method OnFrame(handle: nat, writable: bool)
      requires Valid() && frame == Some(handle)
      modifies this
      ensures Valid() && events == old(events) + [FrameFires(writable)] && initial == old(initial)
      ensures pending.None? && frame.None?
      ensures LastOffered(old(events)).Some?
      ensures var v := LastOffered(old(events)).value;
              writable && Sanitize(v).Some? && Carries(codec, Sanitize(v).value) ==> ReadPathState(codec, kept) == Sanitize(v)
    {
      WaitingIsTheLast(codec, initial, events);
      ghost var v := pending.value;
      FlushPending(writable);
      if Sanitize(v).Some? { WrittenIsReadBack(codec, old(kept), v, writable); }
      Happened(FrameFires(writable));
    }

    /** The frame is cancelled, nothing waits, and the snapshot can be read back; a value that is none changes nothing kept. */
    method WritePathState(v: Json, writable: bool)
      requires Valid()
      modifies this
      ensures Valid() && events == old(events) + [Write(v, writable)] && initial == old(initial)
      ensures pending.None? && frame.None?
      ensures writable && Sanitize(v).Some? && Carries(codec, Sanitize(v).value) ==> ReadPathState(codec, kept) == Sanitize(v)
      ensures Sanitize(v).None? ==> kept == old(kept)
    {
      Put(v, writable);
      if Sanitize(v).Some? { WrittenIsReadBack(codec, old(kept), v, writable); }
      Happened(Write(v, writable));
    }

    method FlushPending(writable: bool)
      modifies this`pending, this`frame, this`kept
      ensures Now() == OnFlush(codec, old(Now()), writable)
    {
      if pending.Some? { Put(pending.value, writable); }
    }

    method Put(v: Json, writable: bool)
      modifies this`pending, this`frame, this`kept
      ensures Now() == OnWrite(codec, old(Now()), v, writable)
    {
      frame := None;
      pending := None;
      var safe := Sanitize(v);
      if safe.None? { return; }
      if writable { kept := kept.(session := Some(codec.stringify(OfSnapshot(safe.value)))); }
      kept := kept.(hash := Path(safe.value));
    }
  }
}
