/**
 The renderer timing of `evals/worlds/session-shell.ts` (`observeInstantRenderer`):
 from the first trusted input to the second of two consecutive frames that are ready.
 What makes an input qualify and a frame ready is decided elsewhere.
 */
module InstantRenderer {
  import opened Basics

  datatype Event = Input(now: int, qualifies: bool) | Frame(now: int, ready: bool)

  datatype State = State(startedAt: Option<int>, elapsedMs: Option<int>, frames: nat, consecutiveFrames: nat)

  const START := State(None, None, 0, 0)

  /** One input event or one animation frame. */
  function Turn(st: State, e: Event): State {
    match e
    case Input(now, qualifies) => if st.startedAt.Some? || !qualifies then st else st.(startedAt := Some(now))
    case Frame(now, ready) =>
      if st.startedAt.None? || st.elapsedMs.Some? then st
      else
        var consecutive := if ready then st.consecutiveFrames + 1 else 0;
        st.(frames := st.frames + 1, consecutiveFrames := consecutive,
            elapsedMs := if consecutive >= 2 then Some(now - st.startedAt.value) else None)
  }

  function Observe(events: seq<Event>): State {
    if events == [] then START else Turn(Observe(events[..|events| - 1]), events[|events| - 1])
  }

  // -------- what the numbers mean --------

  /** `i` is the first qualifying input. */
  ghost predicate Starts(events: seq<Event>, i: nat) {
    && i < |events| && events[i].Input? && events[i].qualifies
    && forall j: nat :: j < i ==> !(events[j].Input? && events[j].qualifies)
  }

  /** `k` is a ready frame after event `i`, and so is the frame just before it. */
  ghost predicate SecondReady(events: seq<Event>, i: nat, k: nat) {
    && i < k < |events| && events[k].Frame? && events[k].ready
    && exists j: nat :: JustBefore(events, i, j, k) && events[j].ready
  }

  /** `j` is the last frame before `k`, and after `i`. */
  ghost predicate JustBefore(events: seq<Event>, i: nat, j: nat, k: nat) {
    && i < j < k <= |events| && events[j].Frame?
    && forall n: nat :: j < n < k ==> !events[n].Frame?
  }

  ghost predicate FirstPair(events: seq<Event>, i: nat, k: nat) {
    SecondReady(events, i, k) && forall n: nat :: n < k ==> !SecondReady(events, i, n)
  }

  /** The last frame after `i` is ready. */
  ghost predicate LastReady(events: seq<Event>, i: nat) {
    exists j: nat :: JustBefore(events, i, j, |events|) && events[j].ready
  }

  /** How many of the events from `lo` up to `hi` are frames. */
  ghost function Frames(events: seq<Event>, lo: nat, hi: nat): nat
    requires hi <= |events|
  {
    if hi <= lo then 0 else Frames(events, lo, hi - 1) + if events[hi - 1].Frame? then 1 else 0
  }

  lemma {:induction false} FramesOn(events: seq<Event>, e: Event, lo: nat, hi: nat)
    requires hi <= |events|
    ensures Frames(events + [e], lo, hi) == Frames(events, lo, hi)
  {
    if lo < hi { FramesOn(events, e, lo, hi - 1); }
  }

  ghost predicate Matches(st: State, events: seq<Event>) {
    && (st.startedAt.None? ==> st == START && forall i: nat :: !Starts(events, i))
    && (st.startedAt.Some? ==> exists i: nat :: Starts(events, i) && st.startedAt == Some(events[i].now) && Timed(st, events, i))
  }

  ghost predicate Timed(st: State, events: seq<Event>, i: nat)
    requires i < |events|
  {
    if st.elapsedMs.Some?
    then st.consecutiveFrames == 2 && exists k: nat :: Stopped(st, events, i, k)
    else && NoPair(events, i) && st.consecutiveFrames == (if LastReady(events, i) then 1 else 0)
         && st.frames == Frames(events, i + 1, |events|)
  }

  /** The clock that event `i` has started has been stopped by event `k`. */
  ghost predicate Stopped(st: State, events: seq<Event>, i: nat, k: nat)
    requires i < |events|
  {
    && FirstPair(events, i, k)
    && st.elapsedMs == Some(events[k].now - events[i].now)
    && st.frames == Frames(events, i + 1, k + 1)
  }

  lemma StartsOn(events: seq<Event>, e: Event, i: nat)
    requires i < |events|
    ensures Starts(events + [e], i) <==> Starts(events, i)
  {
    assert forall j: nat :: j < |events| ==> (events + [e])[j] == events[j];
  }

  lemma PairOn(events: seq<Event>, e: Event, i: nat, k: nat)
    requires k < |events|
    ensures SecondReady(events + [e], i, k) <==> SecondReady(events, i, k)
  {
    assert forall j: nat :: j < |events| ==> (events + [e])[j] == events[j];
    assert forall j: nat :: JustBefore(events + [e], i, j, k) <==> JustBefore(events, i, j, k);
  }

  /** A new event is the second ready frame exactly if it is a ready frame right after one. */
  lemma PairHere(events: seq<Event>, e: Event, i: nat)
    requires i < |events|
    ensures SecondReady(events + [e], i, |events|) <==> e.Frame? && e.ready && LastReady(events, i)
    ensures LastReady(events + [e], i) <==> if e.Frame? then e.ready else LastReady(events, i)
  {
    var all, n := events + [e], |events|;
    assert all[n] == e && forall j: nat :: j < n ==> all[j] == events[j];
    assert forall j: nat :: JustBefore(all, i, j, n) <==> JustBefore(events, i, j, n);
    if e.Frame? {
      assert JustBefore(all, i, n, n + 1);
      assert forall j: nat :: JustBefore(all, i, j, |all|) ==> j == n;
    } else {
      forall j: nat ensures JustBefore(all, i, j, n + 1) <==> JustBefore(events, i, j, n) {
        if JustBefore(events, i, j, n) { assert forall m: nat :: j < m < n + 1 ==> !all[m].Frame?; }
      }
    }
  }

  lemma FirstPairStays(events: seq<Event>, e: Event, i: nat, k: nat)
    requires FirstPair(events, i, k)
    ensures FirstPair(events + [e], i, k) && (events + [e])[k] == events[k]
  {
    forall n: nat | n <= k ensures SecondReady(events + [e], i, n) <==> SecondReady(events, i, n) { PairOn(events, e, i, n); }
  }

  ghost predicate NoPair(events: seq<Event>, i: nat) { forall k: nat :: !SecondReady(events, i, k) }

  lemma FirstPairOrNone(events: seq<Event>, e: Event, i: nat)
    requires NoPair(events, i)
    ensures SecondReady(events + [e], i, |events|) ==> FirstPair(events + [e], i, |events|)
    ensures !SecondReady(events + [e], i, |events|) ==> NoPair(events + [e], i)
  {
    forall k: nat | k < |events| ensures !SecondReady(events + [e], i, k) { PairOn(events, e, i, k); }
  }

  lemma TimedStep(st: State, events: seq<Event>, e: Event, i: nat)
    requires i < |events| && st.startedAt == Some(events[i].now) && Timed(st, events, i)
    ensures Timed(Turn(st, e), events + [e], i)
  {
    var all, n := events + [e], |events|;
    assert all[i] == events[i] && all[n] == e;
    if st.elapsedMs.Some? {
      var k: nat :| Stopped(st, events, i, k);
      FirstPairStays(events, e, i, k);
      FramesOn(events, e, i + 1, k + 1);
      assert Stopped(st, all, i, k);
    } else {
      FirstPairOrNone(events, e, i);
      PairHere(events, e, i);
      FramesOn(events, e, i + 1, n);
      if SecondReady(all, i, n) { assert Stopped(Turn(st, e), all, i, n); }
    }
  }

  lemma StartStep(st: State, events: seq<Event>, e: Event)
    requires Matches(st, events) && st.startedAt.None?
    ensures Matches(Turn(st, e), events + [e])
  {
    var all, n := events + [e], |events|;
    assert all[n] == e && forall j: nat :: j < n ==> all[j] == events[j];
    forall i: nat | i < n ensures !Starts(all, i) { StartsOn(events, e, i); }
    if e.Input? && e.qualifies {
      if j: nat :| j < n && events[j].Input? && events[j].qualifies { FirstStart(events, j); }
      assert Starts(all, n);
      assert Timed(Turn(st, e), all, n);
    }
  }

  lemma {:induction false} FirstStart(events: seq<Event>, j: nat)
    requires j < |events| && events[j].Input? && events[j].qualifies
    ensures exists i: nat :: Starts(events, i)
    decreases j
  {
    if i: nat :| i < j && events[i].Input? && events[i].qualifies { FirstStart(events, i); } else { assert Starts(events, j); }
  }

  /** Whatever inputs and frames there are, in any order: the clock starts at the first
      qualifying input, and it stops, for good, at the first frame after it that is
      ready right after another ready frame; until then there has been no such frame.
      The frames counted are those from the start to the stop. */
  lemma {:induction false} TimingExact(events: seq<Event>)
    ensures Matches(Observe(events), events)
  {
    if events != [] {
      var seen, e := events[..|events| - 1], events[|events| - 1];
      assert events == seen + [e];
      TimingExact(seen);
      var st := Observe(seen);
      if st.startedAt.None? {
        StartStep(st, seen, e);
      } else {
        var i: nat :| Starts(seen, i) && st.startedAt == Some(seen[i].now) && Timed(st, seen, i);
        StartsOn(seen, e, i);
        TimedStep(st, seen, e, i);
        assert events[i] == seen[i];
      }
    }
  }

  // -------- the observer as an object --------

  class Observer {
    var startedAt: Option<int>
    var elapsedMs: Option<int>
    var frames: nat
    var consecutiveFrames: nat

    constructor ()
      ensures View() == START
    {
      startedAt, elapsedMs, frames, consecutiveFrames := None, None, 0, 0;
    }

    ghost function View(): State
      reads this
    {
      State(startedAt, elapsedMs, frames, consecutiveFrames)
    }

    method Capture(now: int, qualifies: bool)
      modifies this
      ensures View() == Turn(old(View()), Input(now, qualifies))
    {
      if startedAt.Some? || !qualifies { return; }
      startedAt := Some(now);
    }

    method TakeSample(now: int, ready: bool)
      modifies this
      ensures View() == Turn(old(View()), Frame(now, ready))
    {
      if startedAt.None? || elapsedMs.Some? { return; }
      frames := frames + 1;
      consecutiveFrames := if ready then consecutiveFrames + 1 else 0;
      if consecutiveFrames >= 2 { elapsedMs := Some(now - startedAt.value); }
    }
  }
}
