/**
 The interaction recorder of src/lib/interaction-recorder.ts: which entries it keeps and which it
 posts, for any order of inputs, late paints, page exits, stops and clears. An entry's frame and
 mutation figures are left out; its input-to-paint list is modelled by its length.
 */
module Recorder {
  import opened Wrappers

  /** MAX_FRONTEND_EVENTS of diagnostics.ts. */
  const MAX_EVENTS: nat := 500

  datatype Kind = Click | Drag | Key | Scroll

  /** A segment: paints still awaited, paints measured so far, and whether it was flushed. A
      segment lives on in the closures of its paints after the recorder lost sight of it. */
  datatype Segment = Segment(kind: Kind, pendingPaints: nat, painted: nat, flushed: bool)

  /** A postToDevSink call, with the number of paints its entry held. */
  datatype Post = Post(id: nat, painted: nat)

  datatype State = State(
    recording: bool,
    pointerDown: bool,
    current: Option<nat>,
    recorded: seq<nat>,
    awaitingPaint: seq<nat>,       // a Set, in insertion order
    segments: seq<Segment>,        // every segment begun; its index is its id
    measured: seq<nat>,            // how many inputs each segment measured
    posts: seq<Post>,
    history: seq<nat>,             // every entry flushed since the last clear
    cut: set<nat>,                 // entries that still waited when a page exit posted them
    exited: set<nat>,              // entries of history at a page exit the recorder heard
    missed: set<nat>)              // entries of history at a page exit it did not hear

  const INITIAL := State(false, false, None, [], [], [], [], [], [], {}, {}, {})

  function Last<T>(xs: seq<T>, n: nat): seq<T> {
    if |xs| > n then xs[|xs| - n..] else xs
  }

  /** Set.add. */
  function Include(ids: seq<nat>, id: nat): seq<nat> { if id in ids then ids else ids + [id] }

  /** Set.delete. */
  function Exclude(ids: seq<nat>, id: nat): (r: seq<nat>)
    ensures forall x :: x in r <==> x in ids && x != id
  {
    if ids == [] then []
    else if ids[0] == id then Exclude(ids[1..], id)
    else [ids[0]] + Exclude(ids[1..], id)
  }

  /** Ids name segments. */
  ghost predicate Shaped(s: State) {
    && |s.measured| == |s.segments|
    && (s.current.Some? ==> s.current.value < |s.segments|)
    && (forall i :: 0 <= i < |s.awaitingPaint| ==> s.awaitingPaint[i] < |s.segments|)
  }

  function Flush(s: State): (r: State)
    requires Shaped(s)
    ensures Shaped(r) && |r.segments| == |s.segments|
  {
    if s.current.None? then s
    else
      var id := s.current.value;
      var segment := s.segments[id];
      var s1 := s.(current := None,
                   segments := s.segments[id := segment.(flushed := true)],
                   recorded := Last(s.recorded + [id], MAX_EVENTS),
                   history := s.history + [id]);
      if segment.pendingPaints == 0 then s1.(posts := s.posts + [Post(id, segment.painted)])
      else s1.(awaitingPaint := Include(s.awaitingPaint, id))
  }

  /** The posts of these entries, in order, each with the paints its segment holds now. */
  function PostAll(ids: seq<nat>, segments: seq<Segment>): (r: seq<Post>)
    requires forall i :: 0 <= i < |ids| ==> ids[i] < |segments|
    ensures |r| == |ids| && forall i :: 0 <= i < |ids| ==> r[i] == Post(ids[i], segments[ids[i]].painted)
  {
    seq(|ids|, i requires 0 <= i < |ids| => Post(ids[i], segments[ids[i]].painted))
  }

  function Ids(ids: seq<nat>): set<nat> { set id | id in ids }

  /** A page exit. Its listener lives only while recording, so otherwise nothing hears it. */
  function PageExits(s: State): State
    requires Shaped(s)
  {
    if s.recording then FlushForPageExit(s) else s.(missed := Ids(s.history))
  }

  function FlushForPageExit(s: State): State
    requires Shaped(s)
  {
    var s1 := Flush(s);
    s1.(awaitingPaint := [], cut := s1.cut + Ids(s1.awaitingPaint), exited := Ids(s1.history),
        posts := s1.posts + PostAll(s1.awaitingPaint, s1.segments))
  }

  function Begin(s: State, kind: Kind): (r: State)
    requires Shaped(s)
    ensures Shaped(r)
  {
    var s1 := Flush(s);
    s1.(current := Some(|s1.segments|), segments := s1.segments + [Segment(kind, 0, 0, false)], measured := s1.measured + [0])
  }

  /** measureInputToPaint. */
  function Measure(s: State): State
    requires Shaped(s)
  {
    if s.current.None? then s
    else
      var id := s.current.value;
      s.(segments := s.segments[id := s.segments[id].(pendingPaints := s.segments[id].pendingPaints + 1)],
         measured := s.measured[id := s.measured[id] + 1])
  }

  /** The message task after a measured frame of segment `id`. */
  function Painted(s: State, id: nat): State
    requires Shaped(s) && id < |s.segments| && s.segments[id].pendingPaints > 0
  {
    var segment := s.segments[id].(painted := s.segments[id].painted + 1, pendingPaints := s.segments[id].pendingPaints - 1);
    var s1 := s.(segments := s.segments[id := segment]);
    if segment.flushed && segment.pendingPaints == 0 && id in s.awaitingPaint
    then s1.(awaitingPaint := Exclude(s.awaitingPaint, id), posts := s.posts + [Post(id, segment.painted)])
    else s1
  }

  function Clear(s: State): State {
    s.(recorded := [], current := None, awaitingPaint := [], history := [], cut := {}, exited := {}, missed := {})
  }

  datatype Event =
    | Started
    | StoppedRecording
    | PointerDown
    | PointerMove
    | PointerUp
    | Clicked
    | Wheel
    | KeyDown(held: bool)
    | Hidden
    | PaintDone(id: nat)
    | PageHide
    | Cleared

  /** Listeners exist only while recording; a paint ends once for each measurement. The page may exit at any time. */
  ghost predicate Possible(s: State, e: Event) {
    match e
    case PaintDone(id) => id < |s.segments| && s.segments[id].pendingPaints > 0
    case Started => true
    case StoppedRecording => true
    case Cleared => true
    case PageHide => true
    case _ => s.recording
  }

  predicate IsKind(s: State, kind: Kind)
    requires Shaped(s)
  {
    s.current.Some? && s.segments[s.current.value].kind == kind
  }

  function Step(s: State, e: Event): State
    requires Shaped(s) && Possible(s, e)
  {
    match e
    case Started => s.(recording := true)
    case StoppedRecording => if s.recording then Flush(s).(recording := false, pointerDown := false) else s
    case PointerDown => Measure(Begin(s.(pointerDown := true), Click))
    case PointerMove =>
      if s.pointerDown && IsKind(s, Click)
      then s.(segments := s.segments[s.current.value := s.segments[s.current.value].(kind := Drag)])
      else s
    case PointerUp => s.(pointerDown := false)
    case Clicked => Measure(s)
    case Wheel => if IsKind(s, Scroll) then s else Measure(Begin(s, Scroll))
    case KeyDown(held) => if held && IsKind(s, Key) then s else Measure(Begin(s, Key))
    case Hidden => Flush(s)
    case PaintDone(id) => Painted(s, id)
    case PageHide => PageExits(s)
    case Cleared => Clear(s)
  }

  // ---------------------------------------------------------------- every run

  ghost predicate Posted(posts: seq<Post>, id: nat) {
    exists i :: 0 <= i < |posts| && posts[i].id == id
  }

  ghost predicate OncePerId(posts: seq<Post>) {
    forall i, j :: 0 <= i < j < |posts| ==> posts[i].id != posts[j].id
  }

  ghost predicate NoRepeats(ids: seq<nat>) {
    forall i, j :: 0 <= i < j < |ids| ==> ids[i] != ids[j]
  }

  /** Every post is of a flushed segment, and no segment is posted twice. */
  ghost predicate PostsInv(s: State) {
    && OncePerId(s.posts)
    && (forall i :: 0 <= i < |s.posts| ==> s.posts[i].id < |s.segments| && s.segments[s.posts[i].id].flushed)
  }

  /** The entries waiting for a paint are exactly those flushed since the last clear that were not
      posted, and each really waits. */
  ghost predicate WaitInv(s: State) {
    && NoRepeats(s.awaitingPaint)
    && (forall id :: id in s.awaitingPaint ==>
          id < |s.segments| && id in s.history && !Posted(s.posts, id) && s.segments[id].pendingPaints > 0)
    && (forall id :: id in s.history ==>
          id < |s.segments| && s.segments[id].flushed && (Posted(s.posts, id) || id in s.awaitingPaint))
    && (s.current.Some? ==> s.current.value < |s.segments| && !s.segments[s.current.value].flushed)
    && (forall id :: id in s.exited ==> id in s.history && Posted(s.posts, id))
    && s.cut <= s.exited && s.missed <= Ids(s.history)
    && s.recorded == Last(s.history, MAX_EVENTS)
  }

  /** Unless a page exit cut it short, an entry was posted with every paint it ever waited for. */
  ghost predicate Whole(s: State) {
    forall i :: 0 <= i < |s.posts| && s.posts[i].id < |s.segments| && s.posts[i].id in s.history && s.posts[i].id !in s.cut ==>
      var segment := s.segments[s.posts[i].id];
      segment.pendingPaints == 0 && s.posts[i].painted == segment.painted
  }

  /** Every input measured is a paint recorded or a paint to come. */
  ghost predicate Counted(s: State) {
    |s.measured| == |s.segments|
    && forall id :: 0 <= id < |s.segments| ==> s.segments[id].painted + s.segments[id].pendingPaints == s.measured[id]
  }

  ghost predicate Inv(s: State) {
    Shaped(s) && PostsInv(s) && WaitInv(s) && Whole(s) && Counted(s)
  }

  lemma PostedGrows(posts: seq<Post>, more: seq<Post>, id: nat)
    ensures Posted(posts + more, id) <==> Posted(posts, id) || Posted(more, id)
  {
    if Posted(posts, id) {
      var i :| 0 <= i < |posts| && posts[i].id == id;
      assert (posts + more)[i].id == id;
    }
    if Posted(more, id) {
      var i :| 0 <= i < |more| && more[i].id == id;
      assert (posts + more)[|posts| + i].id == id;
    }
  }

  lemma PostedOne(p: Post, id: nat)
    ensures Posted([p], id) <==> p.id == id
  {
    assert [p][0] == p;
  }

  /** Posting an entry that waits, or was just flushed, keeps the posts single. */
  lemma PostOneKeeps(posts: seq<Post>, p: Post)
    requires OncePerId(posts) && !Posted(posts, p.id)
    ensures OncePerId(posts + [p])
    ensures forall id :: Posted(posts + [p], id) <==> Posted(posts, id) || id == p.id
  {
    forall id ensures Posted(posts + [p], id) <==> Posted(posts, id) || id == p.id {
      PostedGrows(posts, [p], id);
      PostedOne(p, id);
    }
  }

  lemma {:induction false} ExcludeKeeps(ids: seq<nat>, id: nat)
    requires NoRepeats(ids)
    ensures NoRepeats(Exclude(ids, id))
  {
    if ids != [] {
      ExcludeKeeps(ids[1..], id);
      assert ids[0] !in ids[1..];
    }
  }

  lemma LastGrows<T>(xs: seq<T>, x: T, n: nat)
    requires n > 0
    ensures Last(Last(xs, n) + [x], n) == Last(xs + [x], n)
  {
  }

  /** What flush does to the posts. */
  lemma FlushPosts(s: State)
    requires Inv(s) && s.current.Some?
    ensures PostsInv(Flush(s))
    ensures var id := s.current.value;
            forall x :: Posted(Flush(s).posts, x) <==>
              Posted(s.posts, x) || (x == id && s.segments[id].pendingPaints == 0)
  {
    var id := s.current.value;
    assert !Posted(s.posts, id);
    if s.segments[id].pendingPaints == 0 {
      PostOneKeeps(s.posts, Post(id, s.segments[id].painted));
    }
  }

  lemma FlushWaits(s: State)
    requires Inv(s) && s.current.Some?
    ensures WaitInv(Flush(s))
  {
    FlushPosts(s);
    assert s.current.value !in s.awaitingPaint;
    LastGrows(s.history, s.current.value, MAX_EVENTS);
  }

  lemma FlushWhole(s: State)
    requires Inv(s) && s.current.Some?
    ensures Whole(Flush(s))
  {
    var r := Flush(s);
    var id := s.current.value;
    assert id !in s.history;
    forall i | 0 <= i < |r.posts| && r.posts[i].id < |r.segments| && r.posts[i].id in r.history && r.posts[i].id !in r.cut
      ensures var segment := r.segments[r.posts[i].id];
              segment.pendingPaints == 0 && r.posts[i].painted == segment.painted
    {
      if i < |s.posts| {
        assert r.posts[i] == s.posts[i] && Posted(s.posts, s.posts[i].id);
      }
    }
  }

  lemma FlushKeeps(s: State)
    requires Inv(s)
    ensures Inv(Flush(s)) && Flush(s).current == None && |Flush(s).segments| == |s.segments|
  {
    if s.current.Some? {
      FlushPosts(s);
      FlushWaits(s);
      FlushWhole(s);
    }
  }

  /** A flushed entry is posted once unless it waits. */
  lemma FlushedOnce(s: State)
    requires Inv(s) && s.current.Some?
    ensures var r, id := Flush(s), s.current.value;
            && Posts(r.posts, id) == (if r.segments[id].pendingPaints == 0 then 1 else 0)
            && (id in r.awaitingPaint <==> r.segments[id].pendingPaints > 0)
  {
    FlushPosts(s);
    CountPosts(Flush(s).posts, s.current.value);
  }

  /** Changes to segments that are not flushed, and new segments, keep the invariant. */
  lemma OpenSegmentsKeep(s: State, r: State)
    requires Inv(s) && |r.segments| >= |s.segments|
    requires r == s.(segments := r.segments, measured := r.measured, current := r.current, recording := r.recording,
                     pointerDown := r.pointerDown)
    requires Counted(r)
    requires forall id :: 0 <= id < |s.segments| ==>
               r.segments[id] == s.segments[id] || (!s.segments[id].flushed && !r.segments[id].flushed)
    requires r.current.Some? ==> r.current.value < |r.segments| && !r.segments[r.current.value].flushed
    ensures Inv(r)
  {
  }

  lemma MeasureKeeps(s: State)
    requires Inv(s)
    ensures Inv(Measure(s))
  {
    OpenSegmentsKeep(s, Measure(s));
  }

  lemma BeginKeeps(s: State, kind: Kind)
    requires Inv(s)
    ensures Inv(Begin(s, kind)) && Inv(Measure(Begin(s, kind)))
  {
    FlushKeeps(s);
    OpenSegmentsKeep(Flush(s), Begin(s, kind));
    OpenSegmentsKeep(Begin(s, kind), Measure(Begin(s, kind)));
  }

  lemma PaintedPosts(s: State, id: nat)
    requires Inv(s) && Possible(s, PaintDone(id))
    ensures var r := Painted(s, id);
            && PostsInv(r)
            && (forall x :: Posted(r.posts, x) <==>
                  Posted(s.posts, x) || (x == id && id in s.awaitingPaint && s.segments[id].pendingPaints == 1))
  {
    var r := Painted(s, id);
    if r.posts != s.posts {
      PostOneKeeps(s.posts, Post(id, r.segments[id].painted));
    }
  }

  lemma PaintedWhole(s: State, id: nat)
    requires Inv(s) && Possible(s, PaintDone(id))
    ensures Whole(Painted(s, id))
  {
    var r := Painted(s, id);
    forall i | 0 <= i < |r.posts| && r.posts[i].id < |r.segments| && r.posts[i].id in r.history && r.posts[i].id !in r.cut
      ensures var segment := r.segments[r.posts[i].id];
              segment.pendingPaints == 0 && r.posts[i].painted == segment.painted
    {
      if i < |s.posts| {
        assert r.posts[i] == s.posts[i] && Posted(s.posts, s.posts[i].id);
      }
    }
  }

  lemma PaintedQueue(s: State, id: nat)
    requires Inv(s) && Possible(s, PaintDone(id))
    ensures var r := Painted(s, id);
            && NoRepeats(r.awaitingPaint)
            && (forall x :: x in r.awaitingPaint <==> x in s.awaitingPaint && (x != id || s.segments[id].pendingPaints > 1))
  {
    ExcludeKeeps(s.awaitingPaint, id);
  }

  lemma PaintedWaits(s: State, id: nat)
    requires Inv(s) && Possible(s, PaintDone(id))
    ensures WaitInv(Painted(s, id))
  {
    PaintedPosts(s, id);
    PaintedQueue(s, id);
  }

  lemma PaintedKeeps(s: State, id: nat)
    requires Inv(s) && Possible(s, PaintDone(id))
    ensures Inv(Painted(s, id))
  {
    PaintedPosts(s, id);
    PaintedWaits(s, id);
    PaintedWhole(s, id);
    var r := Painted(s, id);
    forall i | 0 <= i < |r.awaitingPaint|
      ensures r.awaitingPaint[i] < |r.segments|
    {
      assert r.awaitingPaint[i] in r.awaitingPaint;
    }
  }

  lemma PageExitKeeps(s: State)
    requires Inv(s)
    ensures Inv(PageExits(s))
  {
    if s.recording { FlushForPageExitKeeps(s); }
  }

  lemma FlushForPageExitKeeps(s: State)
    requires Inv(s)
    ensures Inv(FlushForPageExit(s)) && forall id :: id in FlushForPageExit(s).history ==> Posted(FlushForPageExit(s).posts, id)
  {
    FlushKeeps(s);
    var s1 := Flush(s);
    var r := FlushForPageExit(s);
    var more := PostAll(s1.awaitingPaint, s1.segments);
    forall id ensures Posted(r.posts, id) <==> Posted(s1.posts, id) || id in s1.awaitingPaint {
      PostedGrows(s1.posts, more, id);
      if id in s1.awaitingPaint {
        var i :| 0 <= i < |s1.awaitingPaint| && s1.awaitingPaint[i] == id;
        assert more[i].id == id;
      }
    }
    forall i, j | 0 <= i < j < |r.posts| ensures r.posts[i].id != r.posts[j].id {
      if i < |s1.posts| <= j {
        assert Posted(s1.posts, r.posts[i].id);
        assert r.posts[j].id == s1.awaitingPaint[j - |s1.posts|];
      }
    }
  }

  lemma StepInv(s: State, e: Event)
    requires Inv(s) && Possible(s, e)
    ensures Inv(Step(s, e))
  {
    match e
    case StoppedRecording =>
      FlushKeeps(s);
      OpenSegmentsKeep(Flush(s), Flush(s).(recording := false, pointerDown := false));
    case PointerDown => BeginKeeps(s.(pointerDown := true), Click);
    case Wheel => BeginKeeps(s, Scroll);
    case KeyDown(_) => BeginKeeps(s, Key);
    case Hidden => FlushKeeps(s);
    case PaintDone(id) => PaintedKeeps(s, id);
    case PageHide => PageExitKeeps(s);
    case Cleared =>
    case _ => OpenSegmentsKeep(s, Step(s, e));
  }

  ghost function After(events: seq<Event>): (s: State)
    ensures Inv(s)
  {
    if events == [] then INITIAL
    else
      var s := After(events[..|events| - 1]);
      var e := events[|events| - 1];
      if Possible(s, e) then StepInv(s, e); Step(s, e) else s
  }

  ghost function Posts(posts: seq<Post>, id: nat): nat {
    |set i | 0 <= i < |posts| && posts[i].id == id|
  }

  lemma CountPosts(posts: seq<Post>, id: nat)
    requires OncePerId(posts)
    ensures Posts(posts, id) == if Posted(posts, id) then 1 else 0
  {
    var places := set i | 0 <= i < |posts| && posts[i].id == id;
    if Posted(posts, id) {
      var i :| 0 <= i < |posts| && posts[i].id == id;
      assert places == {i};
    } else {
      assert places == {};
    }
  }

  /** In every run no entry is posted twice. An entry flushed since the last clear is posted
      exactly once as soon as all its paints are done or the recorder heard the page exit, and
      not before. */
  lemma PostedExactlyOnce(events: seq<Event>, id: nat)
    ensures Posts(After(events).posts, id) <= 1
    ensures var s := After(events);
            id in s.history ==>
              id < |s.segments| && (Posts(s.posts, id) == 1 <==> s.segments[id].pendingPaints == 0 || id in s.exited)
  {
    var s := After(events);
    CountPosts(s.posts, id);
    if id in s.history && Posted(s.posts, id) {
      var i :| 0 <= i < |s.posts| && s.posts[i].id == id;
      assert s.posts[i].id in s.history;
    }
  }

  /** The promise made for a waiting entry: it is posted once its paints are done or the page exits. */
  ghost predicate PromiseKept(s: State, id: nat)
    requires id < |s.segments|
  {
    s.segments[id].pendingPaints == 0 || id in s.exited || id in s.missed ==> Posts(s.posts, id) == 1
  }

  /** It is kept for an entry except when the page exited unheard, no exit was heard since it was
      flushed, and a paint is still to come. */
  lemma PromiseKeptWhen(events: seq<Event>, id: nat)
    requires id in After(events).history
    ensures var s := After(events);
            && id < |s.segments|
            && (PromiseKept(s, id) <==> !(id in s.missed && id !in s.exited && s.segments[id].pendingPaints > 0))
  {
    PostedExactlyOnce(events, id);
  }

  /** A page exit while recording leaves every entry posted exactly once and none waiting. */
  lemma HeardExitPostsAll(s: State)
    requires Inv(s) && s.recording
    ensures var r := Step(s, PageHide);
            && r.awaitingPaint == [] && r.current == None
            && r.history == s.history + (if s.current.Some? then [s.current.value] else [])
            && (forall id :: id in r.history ==> Posts(r.posts, id) == 1 && id in r.exited)
  {
    var r := Step(s, PageHide);
    FlushForPageExitKeeps(s);
    forall id | id in r.history
      ensures Posts(r.posts, id) == 1
    {
      CountPosts(r.posts, id);
    }
  }

  /** A page exit posts an entry that waits if and only if the recorder is recording. */
  lemma ExitPostsWaitingWhenRecording(s: State, id: nat)
    requires Inv(s) && id in s.awaitingPaint
    ensures var r := Step(s, PageHide);
            && (Posts(r.posts, id) == 1 <==> s.recording)
            && (Posts(r.posts, id) == 0 <==> !s.recording)
            && (id in r.awaitingPaint <==> !s.recording)
  {
    var r := Step(s, PageHide);
    if s.recording { HeardExitPostsAll(s); } else { CountPosts(r.posts, id); }
  }

  lemma AfterNext(events: seq<Event>, e: Event)
    ensures After(events + [e]) == if Possible(After(events), e) then Step(After(events), e) else After(events)
  {
    assert (events + [e])[..|events|] == events;
  }

  const PRESSED := State(true, true, Some(0), [], [], [Segment(Click, 1, 0, false)], [1], [], [], {}, {}, {})

  const STOPPED := State(false, false, None, [0], [0], [Segment(Click, 1, 0, true)], [1], [], [0], {}, {}, {})

  lemma PressedStep()
    ensures Step(INITIAL.(recording := true), PointerDown) == PRESSED
  {
    var s := INITIAL.(recording := true, pointerDown := true);
    assert Begin(s, Click) == s.(current := Some(0), segments := [Segment(Click, 0, 0, false)], measured := [0]);
  }

  lemma StoppedStep()
    ensures Step(PRESSED, StoppedRecording) == STOPPED
  {
    assert Include([], 0) == [0] && Last([] + [0], MAX_EVENTS) == [0];
    assert PRESSED.segments[0 := Segment(Click, 1, 0, true)] == [Segment(Click, 1, 0, true)];
  }

  /** Recording stops before its one input is painted. */
  function StoppedRun(): seq<Event> { [Started] + [PointerDown] + [StoppedRecording] }

  lemma AfterStoppedRun()
    ensures After(StoppedRun()) == STOPPED
  {
    AfterNext([], Started);
    assert [] + [Started] == [Started];
    AfterNext([Started], PointerDown);
    PressedStep();
    AfterNext([Started] + [PointerDown], StoppedRecording);
    StoppedStep();
  }

  lemma MissedStep()
    ensures Step(STOPPED, PageHide) == STOPPED.(missed := {0})
  {
    assert Ids([0]) == {0};
  }

  lemma NothingPosted(id: nat)
    ensures Posts([], id) == 0
  {
    CountPosts([], id);
  }

  lemma BrokenPromise()
    ensures 0 in STOPPED.history && 0 in STOPPED.awaitingPaint && !PromiseKept(STOPPED.(missed := {0}), 0)
  {
    NothingPosted(0);
  }

  /** The run that breaks the promise: the page then exits, and the entry still waits unposted. */
  lemma StoppedEntryIsNotPosted()
    ensures After(StoppedRun() + [PageHide]) == STOPPED.(missed := {0})
    ensures !PromiseKept(After(StoppedRun() + [PageHide]), 0)
  {
    AfterStoppedRun();
    AfterMissed(StoppedRun());
    BrokenPromise();
  }

  lemma AfterMissed(events: seq<Event>)
    requires After(events) == STOPPED
    ensures After(events + [PageHide]) == STOPPED.(missed := {0})
  {
    AfterNext(events, PageHide);
    MissedStep();
  }

  /** In every run a segment's recorded paints and those to come are exactly the inputs it measured. */
  lemma PaintsAreCounted(events: seq<Event>, id: nat)
    requires id < |After(events).segments|
    ensures var s := After(events);
            id < |s.measured| && s.segments[id].painted + s.segments[id].pendingPaints == s.measured[id]
  {
    assert Counted(After(events));
  }

  /** An entry that no page exit cut short was posted with one figure for every input it measured. */
  lemma PostedWhole(events: seq<Event>, i: nat)
    requires var s := After(events); i < |s.posts| && s.posts[i].id in s.history && s.posts[i].id !in s.cut
    ensures var s := After(events);
            && s.posts[i].id < |s.measured| && s.posts[i].id < |s.segments|
            && s.posts[i].painted == s.measured[s.posts[i].id] && s.segments[s.posts[i].id].pendingPaints == 0
  {
    PaintsAreCounted(events, After(events).posts[i].id);
  }

  /** The entries kept are the last 500 flushed since the last clear, in order. */
  ghost predicate LastOnes(recorded: seq<nat>, history: seq<nat>) {
    && |recorded| == (if |history| > 500 then 500 else |history|)
    && (forall k :: 0 <= k < |recorded| ==> recorded[k] == history[|history| - |recorded| + k])
  }

  lemma KeepsTheLastEntries(events: seq<Event>)
    ensures LastOnes(After(events).recorded, After(events).history)
  {
    RecordedPlaces(After(events));
  }

  lemma RecordedPlaces(s: State)
    requires Inv(s)
    ensures LastOnes(s.recorded, s.history)
  {
    LastPlaces(s.history, MAX_EVENTS);
  }

  lemma LastPlaces(xs: seq<nat>, n: nat)
    ensures var last := Last(xs, n);
            && |last| == (if |xs| > n then n else |xs|)
            && (forall k :: 0 <= k < |last| ==> last[k] == xs[|xs| - |last| + k])
  {
  }

  ghost function Continue(s: State, events: seq<Event>): (r: State)
    requires Inv(s)
    ensures Inv(r)
    decreases |events|
  {
    if events == [] then s
    else if Possible(s, events[0]) then StepInv(s, events[0]); Continue(Step(s, events[0]), events[1..])
    else Continue(s, events[1..])
  }

  /** A segment the recorder lost sight of: neither current, nor waiting, nor posted. */
  ghost predicate Forgotten(s: State, id: nat) {
    id < |s.segments| && s.current != Some(id) && id !in s.awaitingPaint && !Posted(s.posts, id)
  }

  lemma StepForgets(s: State, e: Event, id: nat)
    requires Inv(s) && Possible(s, e) && Forgotten(s, id)
    ensures Forgotten(Step(s, e), id)
  {
    FlushForgets(s, id);
    FlushForgets(s.(pointerDown := true), id);
    if e.PageHide? && s.recording {
      var s1 := Flush(s);
      FlushKeeps(s);
      PostedGrows(s1.posts, PostAll(s1.awaitingPaint, s1.segments), id);
    }
    if e.PaintDone? {
      PostedGrows(s.posts, [Post(e.id, s.segments[e.id].painted + 1)], id);
      PostedOne(Post(e.id, s.segments[e.id].painted + 1), id);
    }
  }

  lemma FlushForgets(s: State, id: nat)
    requires Inv(s) && Forgotten(s, id)
    ensures Forgotten(Flush(s), id)
  {
    if s.current.Some? {
      var p := Post(s.current.value, s.segments[s.current.value].painted);
      PostedGrows(s.posts, [p], id);
      PostedOne(p, id);
    }
  }

  lemma {:induction false} StaysForgotten(s: State, events: seq<Event>, id: nat)
    requires Inv(s) && Forgotten(s, id)
    ensures Forgotten(Continue(s, events), id)
    decreases |events|
  {
    if events != [] {
      if Possible(s, events[0]) {
        StepInv(s, events[0]);
        StepForgets(s, events[0], id);
        StaysForgotten(Step(s, events[0]), events[1..], id);
      } else {
        StaysForgotten(s, events[1..], id);
      }
    }
  }

  /** A clear forgets: an entry that was not posted before it never is, however late its paints end. */
  lemma ClearedIsNeverPosted(s: State, id: nat, events: seq<Event>)
    requires Inv(s) && id < |s.segments| && !Posted(s.posts, id)
    ensures Inv(Clear(s)) && !Posted(Continue(Clear(s), events).posts, id)
  {
    StepInv(s, Cleared);
    StaysForgotten(Clear(s), events, id);
  }

  // ---------------------------------------------------------------- the module's variables

  class InteractionRecorder {
    var recording: bool
    var pointerDown: bool
    var current: Option<nat>
    var recorded: seq<nat>
    var awaitingPaint: seq<nat>
    var segments: seq<Segment>
    ghost var measured: seq<nat>
    var posts: seq<Post>
    ghost var history: seq<nat>
    ghost var cut: set<nat>
    ghost var exited: set<nat>
    ghost var missed: set<nat>

    ghost function Snapshot(): State
      reads this
    {
      State(recording, pointerDown, current, recorded, awaitingPaint, segments, measured, posts, history, cut, exited, missed)
    }

    ghost predicate Valid()
      reads this
    {
      Inv(Snapshot())
    }

    constructor ()
      ensures Valid() && Snapshot() == INITIAL
    {
      recording, pointerDown, current, recorded, awaitingPaint := false, false, None, [], [];
      segments, measured, posts, history, cut, exited, missed := [], [], [], [], {}, {}, {};
    }

    /** Ends the current entry: it is kept, and posted once unless a paint is still to come. */
    method FlushCurrent()
      requires Valid()
      modifies this
      ensures Valid() && Snapshot() == Flush(old(Snapshot())) && current == None
      ensures old(current).Some? ==>
                var id := old(current).value;
                && history == old(history) + [id] && Posts(posts, id) == (if segments[id].pendingPaints == 0 then 1 else 0)
                && (id in awaitingPaint <==> segments[id].pendingPaints > 0)
    {
      FlushKeeps(Snapshot());
      if current.Some? { FlushedOnce(Snapshot()); }
      EndCurrent();
    }

    method EndCurrent()
      requires Shaped(Snapshot())
      modifies this`current, this`segments, this`recorded, this`history, this`posts, this`awaitingPaint
      ensures Snapshot() == Flush(old(Snapshot()))
    {
      if current.None? {
        return;
      }
      var id := current.value;
      current := None;
      segments := segments[id := segments[id].(flushed := true)];
      recorded := recorded + [id];
      history := history + [id];
      if |recorded| > MAX_EVENTS {
        recorded := recorded[|recorded| - MAX_EVENTS..];
      }
      if segments[id].pendingPaints == 0 {
        posts := posts + [Post(id, segments[id].painted)];
      } else if id !in awaitingPaint {
        awaitingPaint := awaitingPaint + [id];
      }
    }

    /** The page exits. While recording every entry is then posted exactly once and none waits. */
    method PageExit()
      requires Valid()
      modifies this
      ensures Valid() && Snapshot() == Step(old(Snapshot()), PageHide)
      ensures old(recording) ==> awaitingPaint == [] && forall id :: id in history ==> Posts(posts, id) == 1
      ensures !old(recording) ==> posts == old(posts) && awaitingPaint == old(awaitingPaint)
    {
      StepInv(Snapshot(), PageHide);
      if recording {
        HeardExitPostsAll(Snapshot());
        HearExit();
      } else {
        missed := Ids(history);
      }
    }

    /** flushForPageExit(). */
    method HearExit()
      requires Valid()
      modifies this
      ensures Snapshot() == FlushForPageExit(old(Snapshot()))
    {
      FlushCurrent();
      PostAwaiting();
      cut, exited := cut + Ids(awaitingPaint), Ids(history);
      awaitingPaint := [];
    }

    /** Posts every waiting entry, in the order they were flushed. */
    method PostAwaiting()
      requires Shaped(Snapshot())
      modifies this`posts
      ensures posts == old(posts) + PostAll(awaitingPaint, segments)
    {
      var i := 0;
      while i < |awaitingPaint|
        invariant 0 <= i <= |awaitingPaint|
        invariant posts == old(posts) + PostAll(awaitingPaint, segments)[..i]
      {
        posts := posts + [Post(awaitingPaint[i], segments[awaitingPaint[i]].painted)];
        i := i + 1;
      }
      assert PostAll(awaitingPaint, segments)[..i] == PostAll(awaitingPaint, segments);
    }

    method BeginSegment(kind: Kind)
      requires Valid()
      modifies this
      ensures Valid() && Snapshot() == Begin(old(Snapshot()), kind)
      ensures current.Some? && segments[current.value] == Segment(kind, 0, 0, false)
      ensures old(current).Some? ==> old(current).value in history
    {
      BeginKeeps(Snapshot(), kind);
      FlushCurrent();
      current := Some(|segments|);
      segments := segments + [Segment(kind, 0, 0, false)];
      measured := measured + [0];
    }

    /** The current entry waits for one more paint; no other entry changes. */
    method MeasureInputToPaint()
      requires Valid()
      modifies this`segments, this`measured
      ensures Valid() && Snapshot() == Measure(old(Snapshot()))
      ensures |segments| == |old(segments)|
      ensures forall id :: 0 <= id < |segments| ==>
                && segments[id].pendingPaints == old(segments)[id].pendingPaints + (if current == Some(id) then 1 else 0)
                && segments[id].painted == old(segments)[id].painted
      ensures |measured| == |old(measured)| && forall id :: 0 <= id < |measured| ==>
                measured[id] == old(measured)[id] + if current == Some(id) then 1 else 0
    {
      MeasureKeeps(Snapshot());
      if current.None? {
        return;
      }
      var id := current.value;
      segments := segments[id := segments[id].(pendingPaints := segments[id].pendingPaints + 1)];
      measured := measured[id := measured[id] + 1];
    }

    /** The message task after a measured frame of segment `id`. */
    method FramePainted(id: nat)
      requires Valid() && Possible(Snapshot(), PaintDone(id))
      modifies this
      ensures Valid() && Snapshot() == Step(old(Snapshot()), PaintDone(id))
      ensures segments[id].painted == old(segments)[id].painted + 1 && measured == old(measured)
      ensures segments[id].pendingPaints == old(segments)[id].pendingPaints - 1
      ensures old(awaitingPaint) != awaitingPaint ==> posts == old(posts) + [Post(id, measured[id])]
      ensures old(awaitingPaint) == awaitingPaint ==> posts == old(posts)
      ensures id in old(awaitingPaint) ==> (id in awaitingPaint <==> segments[id].pendingPaints > 0)
    {
      StepInv(Snapshot(), PaintDone(id));
      CountPaint(id);
    }

    method CountPaint(id: nat)
      requires Shaped(Snapshot()) && id < |segments| && segments[id].pendingPaints > 0
      modifies this`segments, this`awaitingPaint, this`posts
      ensures Snapshot() == Painted(old(Snapshot()), id)
    {
      var segment := segments[id].(painted := segments[id].painted + 1);
      segment := segment.(pendingPaints := segment.pendingPaints - 1);
      segments := segments[id := segment];
      if segment.flushed && segment.pendingPaints == 0 {
        var deleted := id in awaitingPaint;
        if deleted {
          awaitingPaint := Exclude(awaitingPaint, id);
          posts := posts + [Post(id, segment.painted)];
        }
      }
    }

    /** A new segment of this kind is current and waits for one paint; the one before is in the history. */
    ghost predicate Opens(before: Option<nat>, segments: seq<Segment>, kind: Kind)
      reads this
    {
      && current == Some(|segments|) && |this.segments| == |segments| + 1
      && this.segments[|segments|] == Segment(kind, 1, 0, false)
      && (before.Some? ==> before.value in history)
    }

    /** A pointer that moves while it is down turns its click into a drag, and nothing else. */
    method OnPointerMove()
      requires Valid() && recording
      modifies this`segments
      ensures Valid() && Snapshot() == Step(old(Snapshot()), PointerMove)
      ensures |segments| == |old(segments)|
      ensures forall id :: 0 <= id < |segments| ==>
                segments[id] == if pointerDown && current == Some(id) && old(segments)[id].kind == Click
                                then old(segments)[id].(kind := Drag) else old(segments)[id]
    {
      StepInv(Snapshot(), PointerMove);
      if pointerDown && current.Some? && segments[current.value].kind == Click {
        segments := segments[current.value := segments[current.value].(kind := Drag)];
      }
    }

    method OnPointerDown()
      requires Valid() && recording
      modifies this
      ensures Valid() && Snapshot() == Step(old(Snapshot()), PointerDown)
      ensures pointerDown && Opens(old(current), old(segments), Click)
    {
      StepInv(Snapshot(), PointerDown);
      OpenSegmentsKeep(Snapshot(), Snapshot().(pointerDown := true));
      pointerDown := true;
      BeginSegment(Click);
      MeasureInputToPaint();
    }

    method OnWheel()
      requires Valid() && recording
      modifies this
      ensures Valid() && Snapshot() == Step(old(Snapshot()), Wheel)
      ensures if old(current).Some? && old(segments)[old(current).value].kind == Scroll then Snapshot() == old(Snapshot())
              else Opens(old(current), old(segments), Scroll)
    {
      StepInv(Snapshot(), Wheel);
      if current.Some? && segments[current.value].kind == Scroll {
        return;
      }
      BeginSegment(Scroll);
      MeasureInputToPaint();
    }

    method OnKeyDown(held: bool)
      requires Valid() && recording
      modifies this
      ensures Valid() && Snapshot() == Step(old(Snapshot()), KeyDown(held))
      ensures if held && old(current).Some? && old(segments)[old(current).value].kind == Key then Snapshot() == old(Snapshot())
              else Opens(old(current), old(segments), Key)
    {
      StepInv(Snapshot(), KeyDown(held));
      if held && current.Some? && segments[current.value].kind == Key {
        return;
      }
      BeginSegment(Key);
      MeasureInputToPaint();
    }

    method StopRecording()
      requires Valid()
      modifies this
      ensures Valid() && Snapshot() == Step(old(Snapshot()), StoppedRecording)
      ensures !recording && (old(recording) ==> current == None && !pointerDown)
      ensures old(recording) && old(current).Some? ==> history == old(history) + [old(current).value]
    {
      StepInv(Snapshot(), StoppedRecording);
      if !recording {
        return;
      }
      FlushCurrent();
      recording := false;
      pointerDown := false;
    }

    method ClearRecorded()
      requires Valid()
      modifies this
      ensures Valid() && Snapshot() == Step(old(Snapshot()), Cleared)
      ensures recorded == [] && history == [] && awaitingPaint == [] && current == None && posts == old(posts)
    {
      StepInv(Snapshot(), Cleared);
      recorded := [];
      current := None;
      awaitingPaint := [];
      history, cut, exited, missed := [], {}, {}, {};
    }
  }
}
