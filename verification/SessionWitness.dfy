/**
 The session-request witness of `evals/worlds/session-shell.ts`
 (`observeSessionRequests`): it records session traffic, stops at most one
 metadata read, and lets everything else pass.  Values and turns first, the
 mutable witness after them.
 */
module SessionWitness {
  import opened Basics

  datatype Network = Network(verb: string, path: string, networkId: nat, startedAt: int)
  datatype Held = Held(requestId: nat, networkId: nat, sessionId: string, startedAt: int)

  /** The fixed arguments of one observation. `except` is `None` when nothing is
      to be held; `decode` is `decodeURIComponent`, `None` where that throws. */
  datatype Setup = Setup(prefixes: seq<string>, except: Option<seq<string>>, decode: string -> Option<string>)

  datatype Witness = Witness(requests: seq<Network>, held: Option<Held>, released: bool, deadline: Option<int>)

  // -------- deciding about one paused request --------

  datatype Verdict = Stop(held: Held) | Pass | Throws

  function FindNetwork(requests: seq<Network>, id: nat): (r: Option<Network>)
    ensures r.Some? ==> r.value in requests && r.value.networkId == id
    ensures r.None? ==> forall n :: n in requests ==> n.networkId != id
  {
    if requests == [] then None
    else if requests[0].networkId == id then Some(requests[0])
    else FindNetwork(requests[1..], id)
  }

  predicate Below(path: string, prefix: string) { prefix + "/" <= path }

  function FindPrefix(prefixes: seq<string>, path: string): (r: Option<string>)
    ensures r.Some? ==> r.value in prefixes && Below(path, r.value)
    ensures r.None? ==> forall p :: p in prefixes ==> !Below(path, p)
  {
    if prefixes == [] then None
    else if Below(path, prefixes[0]) then Some(prefixes[0])
    else FindPrefix(prefixes[1..], path)
  }

  /** The one path segment below a prefix, if that is what the path is. */
  function SessionSegment(prefixes: seq<string>, path: string): (r: Option<string>)
    ensures r.Some? ==> r.value != "" && '/' !in r.value && exists p :: p in prefixes && path == p + "/" + r.value
  {
    match FindPrefix(prefixes, path)
    case None => None
    case Some(prefix) =>
      var rest := path[|prefix| + 1..];
      if rest == "" || '/' in rest then None else Some(rest)
  }

  /** It is what follows the first prefix that the path is below, unless that is empty or goes on. */
  lemma SegmentIff(prefixes: seq<string>, path: string, x: string)
    ensures SessionSegment(prefixes, path) == Some(x) <==>
            x != "" && '/' !in x && exists i :: 0 <= i < |prefixes| && path == prefixes[i] + "/" + x
                                                && forall j :: 0 <= j < i ==> !(prefixes[j] + "/" <= path)
  {
    FirstPrefix(prefixes, path);
    match FindPrefix(prefixes, path)
    case None =>
    case Some(prefix) => assert path == prefix + "/" + path[|prefix| + 1..];
  }

  lemma {:induction false} FirstPrefix(prefixes: seq<string>, path: string)
    ensures match FindPrefix(prefixes, path)
            case None => forall j :: 0 <= j < |prefixes| ==> !(prefixes[j] + "/" <= path)
            case Some(prefix) => exists i :: 0 <= i < |prefixes| && prefix == prefixes[i] && prefix + "/" <= path
                                             && forall j :: 0 <= j < i ==> !(prefixes[j] + "/" <= path)
  {
    if prefixes != [] && !Below(path, prefixes[0]) {
      FirstPrefix(prefixes[1..], path);
      assert forall j :: 0 < j < |prefixes| ==> prefixes[j] == prefixes[1..][j - 1];
      if FindPrefix(prefixes, path).Some? {
        var prefix := FindPrefix(prefixes, path).value;
        var i :| 0 <= i < |prefixes[1..]| && prefix == prefixes[1..][i] && prefix + "/" <= path
                 && forall j :: 0 <= j < i ==> !(prefixes[1..][j] + "/" <= path);
        assert prefix == prefixes[i + 1];
      }
    }
  }

  function Decide(s: Setup, w: Witness, requestId: nat, networkId: nat, verb: string): Verdict {
    if w.held.Some? || s.except.None? || verb != "GET" then Pass
    else match FindNetwork(w.requests, networkId)
      case None => Pass
      case Some(network) =>
        match SessionSegment(s.prefixes, network.path)
        case None => Pass
        case Some(segment) =>
          match s.decode(segment)
          case None => Throws
          case Some(sessionId) =>
            if sessionId in s.except.value then Pass
            else Stop(Held(requestId, networkId, sessionId, network.startedAt))
  }

  // -------- turns: the new witness and the requests it continues --------

  const HOLD_MS := 1500

  function Max(a: int, b: int): int { if a < b then b else a }

  function PausedTurn(s: Setup, w: Witness, requestId: nat, networkId: nat, verb: string, now: int): (Witness, seq<nat>) {
    match Decide(s, w, requestId, networkId, verb)
    case Stop(held) => (w.(held := Some(held), deadline := Some(now + Max(0, HOLD_MS - (now - held.startedAt)))), [])
    case Pass => (w, [requestId])
    case Throws => (w, [])
  }

  function Release(w: Witness): (Witness, seq<nat>) {
    if w.held.None? || w.released then (w, [])
    else (w.(released := true, deadline := None), [w.held.value.requestId])
  }

  predicate Tracked(prefixes: seq<string>, path: string) {
    exists i :: 0 <= i < |prefixes| && (path == prefixes[i] || Below(path, prefixes[i]))
  }

  function SentTurn(s: Setup, w: Witness, network: Network): Witness {
    if Tracked(s.prefixes, network.path) then w.(requests := w.requests + [network]) else w
  }

  // -------- runs --------

  datatype Event =
    | WillBeSent(network: Network)
    | Paused(requestId: nat, networkId: nat, verb: string, now: int)
    | ReleaseMetadata
    | TimerFires
    | DisposeBegins      // clears the timer and waits for `Fetch.disable`
    | Closed             // the connection is closed, and the run ends

  /** `paused`, `continued` and `stuck` record what has happened to paused requests so
      far; `cut` says that a disposal began while one was held. */
  datatype State = State(watch: Witness, paused: seq<nat>, continued: seq<nat>, stuck: seq<nat>, cut: bool, closed: bool)

  predicate Enabled(st: State, e: Event) {
    !st.closed && (e.TimerFires? ==> st.watch.deadline.Some?)
  }

  function Next(s: Setup, st: State, e: Event): State
    requires Enabled(st, e)
  {
    match e
    case WillBeSent(network) => st.(watch := SentTurn(s, st.watch, network))
    case Paused(id, networkId, verb, now) =>
      var turn := PausedTurn(s, st.watch, id, networkId, verb, now);
      st.(watch := turn.0, paused := st.paused + [id], continued := st.continued + turn.1,
          stuck := if Decide(s, st.watch, id, networkId, verb).Throws? then st.stuck + [id] else st.stuck)
    case ReleaseMetadata =>
      var turn := Release(st.watch);
      st.(watch := turn.0, continued := st.continued + turn.1)
    case TimerFires =>
      var turn := Release(st.watch.(deadline := None));
      st.(watch := turn.0, continued := st.continued + turn.1)
    case DisposeBegins =>
      st.(watch := st.watch.(deadline := None), cut := st.cut || (st.watch.held.Some? && !st.watch.released))
    case Closed => st.(closed := true)
  }

  const START := State(Witness([], None, false, None), [], [], [], false, false)

  ghost predicate Legal(s: Setup, st: State, es: seq<Event>)
    decreases |es|
  {
    es == [] || (Enabled(st, es[0]) && Legal(s, Next(s, st, es[0]), es[1..]))
  }

  ghost function Run(s: Setup, st: State, es: seq<Event>): State
    requires Legal(s, st, es)
    decreases |es|
  {
    if es == [] then st else Run(s, Next(s, st, es[0]), es[1..])
  }

  /** What is stopped right now. */
  ghost function Stopped(w: Witness): multiset<nat> {
    if w.held.Some? && !w.released then multiset{w.held.value.requestId} else multiset{}
  }

  /** What is held is a recorded read of one session below a prefix. */
  ghost predicate HeldIsRead(s: Setup, w: Witness) {
    w.held.Some? ==>
      exists n :: n in w.requests && n.networkId == w.held.value.networkId && n.startedAt == w.held.value.startedAt
                  && SessionSegment(s.prefixes, n.path).Some?
                  && s.decode(SessionSegment(s.prefixes, n.path).value) == Some(w.held.value.sessionId)
  }

  ghost predicate Conserved(st: State) {
    multiset(st.paused) == multiset(st.continued) + Stopped(st.watch) + multiset(st.stuck)
  }

  ghost predicate Inv(s: Setup, st: State) {
    && Conserved(st)
    && HeldIsRead(s, st.watch)
    && (st.watch.released ==> st.watch.held.Some?)
    && (st.watch.deadline.Some? <==> st.watch.held.Some? && !st.watch.released && !st.cut)
    && (st.cut ==> st.watch.held.Some?)
    && (s.except.None? ==> st.watch.held.None?)
    && (st.watch.held.Some? ==> s.except.Some? && st.watch.held.value.sessionId !in s.except.value)
    && ((forall x :: s.decode(x).Some?) ==> st.stuck == [])
  }

  /** What is held stays the one held, and what is released stays released. */
  predicate HoldStays(w: Witness, v: Witness) { (w.held.Some? ==> v.held == w.held) && (w.released ==> v.released) }

  lemma StepKeeps(s: Setup, st: State, e: Event)
    requires Inv(s, st) && Enabled(st, e)
    ensures Inv(s, Next(s, st, e)) && HoldStays(st.watch, Next(s, st, e).watch)
  {
    match e
    case Paused(id, networkId, verb, now) => PausedKeeps(s, st, id, networkId, verb, now);
    case ReleaseMetadata => ReleaseKeeps(s, st, st.watch);
    case TimerFires => ReleaseKeeps(s, st, st.watch.(deadline := None));
    case WillBeSent(network) => SentKeeps(s, st, network);
    case DisposeBegins => EndKeeps(s, st, e);
    case Closed => EndKeeps(s, st, e);
  }

  lemma EndKeeps(s: Setup, st: State, e: Event)
    requires Inv(s, st) && Enabled(st, e) && (e == DisposeBegins || e == Closed)
    ensures Inv(s, Next(s, st, e)) && HoldStays(st.watch, Next(s, st, e).watch)
  {
  }

  /** By the caller, or by the timer, which is then no longer running. */
  lemma ReleaseKeeps(s: Setup, st: State, w: Witness)
    requires Inv(s, st) && (w == st.watch || (st.watch.deadline.Some? && w == st.watch.(deadline := None)))
    ensures Inv(s, st.(watch := Release(w).0, continued := st.continued + Release(w).1))
    ensures HoldStays(st.watch, Release(w).0)
  {
    ReleaseConserves(st, w);
    ReadFrame(s, st.watch, Release(w).0);
    ReleaseFlags(w);
  }

  lemma ReleaseFlags(w: Witness)
    ensures var v := Release(w).0;
            && v == w.(released := v.released, deadline := v.deadline)
            && v.released == (w.released || w.held.Some?)
            && v.deadline == if w.held.Some? && !w.released then None else w.deadline
  {
  }

  lemma ReadFrame(s: Setup, w: Witness, v: Witness)
    requires HeldIsRead(s, w) && v.held == w.held && forall n :: n in w.requests ==> n in v.requests
    ensures HeldIsRead(s, v)
  {
  }

  lemma SentKeeps(s: Setup, st: State, network: Network)
    requires Inv(s, st) && !st.closed
    ensures Inv(s, Next(s, st, WillBeSent(network))) && HoldStays(st.watch, Next(s, st, WillBeSent(network)).watch)
  {
    ReadFrame(s, st.watch, SentTurn(s, st.watch, network));
  }

  lemma ReleaseConserves(st: State, w: Witness)
    requires Conserved(st) && w == st.watch.(deadline := w.deadline)
    ensures Conserved(st.(watch := Release(w).0, continued := st.continued + Release(w).1))
  {
    assert Stopped(w) == multiset(Release(w).1) + Stopped(Release(w).0);
  }

  lemma PausedKeeps(s: Setup, st: State, id: nat, networkId: nat, verb: string, now: int)
    requires Inv(s, st) && Enabled(st, Paused(id, networkId, verb, now))
    ensures var t := Next(s, st, Paused(id, networkId, verb, now)); Inv(s, t) && HoldStays(st.watch, t.watch)
  {
    var t := Next(s, st, Paused(id, networkId, verb, now));
    match Decide(s, st.watch, id, networkId, verb)
    case Stop(held) =>
      StopIsRead(s, st.watch, id, networkId, verb);
      StopKeeps(s, st, t, held);
    case Pass => NotHeldKeeps(s, st, t, id);
    case Throws =>
      ThrowsMeans(s, st.watch, id, networkId, verb);
      NotHeldKeeps(s, st, t, id);
  }

  lemma ThrowsMeans(s: Setup, w: Witness, id: nat, networkId: nat, verb: string)
    requires Decide(s, w, id, networkId, verb).Throws?
    ensures exists x :: s.decode(x).None?
  {
  }

  lemma StopIsRead(s: Setup, w: Witness, id: nat, networkId: nat, verb: string)
    requires Decide(s, w, id, networkId, verb).Stop?
    ensures var held := Decide(s, w, id, networkId, verb).held;
            && w.held.None? && held.requestId == id && s.except.Some? && held.sessionId !in s.except.value
            && forall d :: HeldIsRead(s, w.(held := Some(held), deadline := d))
  {
  }

  /** The request is held. */
  lemma StopKeeps(s: Setup, st: State, t: State, held: Held)
    requires Inv(s, st) && st.watch.held.None? && s.except.Some? && held.sessionId !in s.except.value
    requires t == st.(watch := st.watch.(held := Some(held), deadline := t.watch.deadline), paused := st.paused + [held.requestId])
    requires t.watch.deadline.Some? && HeldIsRead(s, t.watch)
    ensures Inv(s, t)
  {
    assert Conserved(t);
  }

  /** The request is continued, or stuck. */
  lemma NotHeldKeeps(s: Setup, st: State, t: State, id: nat)
    requires Inv(s, st) && t == st.(paused := st.paused + [id], continued := t.continued, stuck := t.stuck)
    requires (t.continued == st.continued + [id] && t.stuck == st.stuck)
             || (t.continued == st.continued && t.stuck == st.stuck + [id] && exists x :: s.decode(x).None?)
    ensures Inv(s, t)
  {
    assert Conserved(t);
  }

  lemma {:induction false} RunKeeps(s: Setup, st: State, es: seq<Event>)
    requires Inv(s, st) && Legal(s, st, es)
    ensures Inv(s, Run(s, st, es))
    ensures st.watch.held.Some? ==> Run(s, st, es).watch.held == st.watch.held
    decreases |es|
  {
    if es != [] {
      StepKeeps(s, st, es[0]);
      RunKeeps(s, Next(s, st, es[0]), es[1..]);
    }
  }

  /** Over every run: the paused requests split, with multiplicity, into those
      continued, the one being held if there is one, and those for which
      decoding the session id threw.  A request once held is the only one ever
      held; it is not continued before it is released and once when it is. */
  lemma OneHeldOthersContinued(s: Setup, es: seq<Event>, more: seq<Event>)
    requires Legal(s, START, es) && Legal(s, Run(s, START, es), more)
    ensures var st := Run(s, START, es);
            var later := Run(s, st, more);
            && Conserved(st)
            && HeldIsRead(s, st.watch)
            && (st.watch.held.Some? ==> later.watch.held == st.watch.held)
            && (s.except.None? ==> st.watch.held.None?)
            && (st.watch.held.Some? ==> st.watch.held.value.sessionId !in s.except.value)
            && ((forall x :: s.decode(x).Some?) ==> st.stuck == [])
  {
    RunKeeps(s, START, es);
    RunKeeps(s, Run(s, START, es), more);
  }

  /** Whoever comes first, caller or timer, releases; the other then does nothing. */
  lemma ReleasedOnce(s: Setup, es: seq<Event>, byTimer: bool)
    requires Legal(s, START, es)
    ensures var st := Run(s, START, es);
            var e := if byTimer then TimerFires else ReleaseMetadata;
            Enabled(st, e) ==>
              && !Enabled(Next(s, st, e), TimerFires) && Enabled(Next(s, st, e), ReleaseMetadata)
              && Next(s, Next(s, st, e), ReleaseMetadata).continued == Next(s, st, e).continued
              && Next(s, st, e).continued == st.continued + if st.watch.held.Some? && !st.watch.released
                                                             then [st.watch.held.value.requestId] else []
  {
    RunKeeps(s, START, es);
  }

  /** A hold that nobody releases and no disposal cuts short ends by the timer,
      which is due 1.5 seconds after the request started or at once if that is past;
      the timer is running exactly as long as that. */
  lemma HoldEnds(s: Setup, es: seq<Event>)
    requires Legal(s, START, es) && !Run(s, START, es).closed
    ensures Enabled(Run(s, START, es), TimerFires) <==>
            Run(s, START, es).watch.held.Some? && !Run(s, START, es).watch.released && !Run(s, START, es).cut
    ensures Enabled(Run(s, START, es), TimerFires) ==> Stopped(Next(s, Run(s, START, es), TimerFires).watch) == multiset{}
  {
    RunKeeps(s, START, es);
  }

  /** What happens to an arriving request, by the state it arrives in: it is held
      exactly if it is the first wanted read, stuck exactly if it is looked at and its
      session id does not decode, and continued at once exactly if neither. */
  lemma ContinuedOnArrivalIff(s: Setup, st: State, id: nat, networkId: nat, verb: string, now: int)
    requires Enabled(st, Paused(id, networkId, verb, now))
    ensures var t := Next(s, st, Paused(id, networkId, verb, now));
            && (JustHeld(st, t, id, now) <==> WantedRead(s, st, networkId, verb))
            && (t.stuck == st.stuck + [id] <==> Undecodable(s, st, networkId, verb))
            && (t.continued == st.continued + [id] <==>
                  !WantedRead(s, st, networkId, verb) && !Undecodable(s, st, networkId, verb))
            && (t.continued == st.continued + [id] || t.continued == st.continued)
            && (WantedRead(s, st, networkId, verb) || t.watch == st.watch)
  {
    var t := Next(s, st, Paused(id, networkId, verb, now));
    assert t.continued == st.continued + [id] ==> |t.continued| == |st.continued| + 1;
    assert t.stuck == st.stuck + [id] ==> |t.stuck| == |st.stuck| + 1;
  }

  /** Nothing has been held yet, and a read is recorded of one session, whose id is not excepted. */
  ghost predicate WantedRead(s: Setup, st: State, networkId: nat, verb: string) {
    && st.watch.held.None? && s.except.Some? && verb == "GET"
    && FindNetwork(st.watch.requests, networkId).Some?
    && SessionSegment(s.prefixes, FindNetwork(st.watch.requests, networkId).value.path).Some?
    && var sessionId := s.decode(SessionSegment(s.prefixes, FindNetwork(st.watch.requests, networkId).value.path).value);
       sessionId.Some? && sessionId.value !in s.except.value
  }

  ghost predicate JustHeld(st: State, t: State, id: nat, now: int) {
    && st.watch.held.None? && t.watch.held.Some?
    && t.watch.held.value.requestId == id && t.continued == st.continued
    && var due := t.watch.held.value.startedAt + 1500;
       t.watch.deadline == Some(if due < now then now else due)
  }

  /** A metadata read is looked at, and its session id does not decode. */
  ghost predicate Undecodable(s: Setup, st: State, networkId: nat, verb: string) {
    && st.watch.held.None? && s.except.Some? && verb == "GET"
    && FindNetwork(st.watch.requests, networkId).Some?
    && SessionSegment(s.prefixes, FindNetwork(st.watch.requests, networkId).value.path).Some?
    && s.decode(SessionSegment(s.prefixes, FindNetwork(st.watch.requests, networkId).value.path).value).None?
  }

  /** The arrivals of a run that are looked at but do not decode, in order. */
  ghost function Undecoded(s: Setup, st: State, es: seq<Event>): seq<nat>
    requires Legal(s, st, es)
    decreases |es|
  {
    if es == [] then []
    else
      (if es[0].Paused? && Undecodable(s, st, es[0].networkId, es[0].verb) then [es[0].requestId] else [])
      + Undecoded(s, Next(s, st, es[0]), es[1..])
  }

  /** Over every run, exactly those get stuck; the others are held or continued
      (`OneHeldOthersContinued`). */
  lemma {:induction false} StuckIsUndecoded(s: Setup, st: State, es: seq<Event>)
    requires Legal(s, st, es)
    ensures Run(s, st, es).stuck == st.stuck + Undecoded(s, st, es)
    decreases |es|
  {
    if es != [] {
      StuckStep(s, st, es[0]);
      StuckIsUndecoded(s, Next(s, st, es[0]), es[1..]);
    }
  }

  lemma StuckStep(s: Setup, st: State, e: Event)
    requires Enabled(st, e)
    ensures Next(s, st, e).stuck
            == st.stuck + if e.Paused? && Undecodable(s, st, e.networkId, e.verb) then [e.requestId] else []
  {
  }

  /** That does happen: a malformed percent escape leaves its request neither held nor continued. */
  lemma MalformedIdIsStuck(decode: string -> Option<string>)
    requires decode("%zz") == None
    ensures var s := Setup(["/w/a/session"], Some([]), decode);
            var es := [WillBeSent(Network("GET", "/w/a/session/%zz", 1, 0)), Paused(9, 1, "GET", 5)];
            && Legal(s, START, es)
            && var t := Run(s, START, es);
               t.paused == [9] && t.continued == [] && t.watch.held == None && t.stuck == [9]
  {
    var s := Setup(["/w/a/session"], Some([]), decode);
    var path, prefix := "/w/a/session/%zz", "/w/a/session";
    var network := Network("GET", path, 1, 0);
    var es := [WillBeSent(network), Paused(9, 1, "GET", 5)];
    assert path[..13] == prefix + "/";
    assert path[13..] == "%zz";
    assert Below(path, s.prefixes[0]) && Tracked(s.prefixes, path);
    var st := Next(s, START, es[0]);
    assert st.watch.requests == [network];
    assert es[1..] == [es[1]] && es[1..][1..] == [];
    assert Undecodable(s, st, 1, "GET");
    var t := Next(s, st, es[1]);
    ContinuedOnArrivalIff(s, st, 9, 1, "GET", 5);
    assert Legal(s, t, []) && Run(s, t, []) == t;
    assert Legal(s, st, [es[1]]) && Run(s, st, [es[1]]) == t;
  }

  // -------- what is recorded --------

  /** A path that concerns sessions: a prefix itself, or something below one. */
  ghost predicate OfSessions(prefixes: seq<string>, path: string) {
    exists i :: 0 <= i < |prefixes| && (path == prefixes[i] || exists rest: string :: path == prefixes[i] + "/" + rest)
  }

  /** The requests of a run whose paths concern sessions, in order. */
  ghost function SessionRequests(prefixes: seq<string>, es: seq<Event>): seq<Network>
    decreases |es|
  {
    if es == [] then []
    else
      (if es[0].WillBeSent? && OfSessions(prefixes, es[0].network.path) then [es[0].network] else [])
      + SessionRequests(prefixes, es[1..])
  }

  lemma TrackedMeans(prefixes: seq<string>, path: string)
    ensures Tracked(prefixes, path) <==> OfSessions(prefixes, path)
  {
    forall i | 0 <= i < |prefixes|
      ensures Below(path, prefixes[i]) <==> exists rest: string :: path == prefixes[i] + "/" + rest
    {
      var start := prefixes[i] + "/";
      if start <= path { assert path == start + path[|start|..]; }
    }
  }

  /** Over every run, whatever is paused or released: recorded are exactly those requests. */
  lemma {:induction false} RecordedExactly(s: Setup, st: State, es: seq<Event>)
    requires Legal(s, st, es)
    ensures Run(s, st, es).watch.requests == st.watch.requests + SessionRequests(s.prefixes, es)
    decreases |es|
  {
    if es != [] {
      RecordStep(s, st, es[0]);
      RecordedExactly(s, Next(s, st, es[0]), es[1..]);
    }
  }

  lemma RecordStep(s: Setup, st: State, e: Event)
    requires Enabled(st, e)
    ensures Next(s, st, e).watch.requests == st.watch.requests
            + if e.WillBeSent? && OfSessions(s.prefixes, e.network.path) then [e.network] else []
  {
    if e.WillBeSent? { TrackedMeans(s.prefixes, e.network.path); }
  }

  // -------- the mutable witness --------

  class Observer {
    const setup: Setup
    var requests: seq<Network>
    var held: Option<Held>
    var released: bool
    var deadline: Option<int>
    var continued: seq<nat>

    constructor (setup: Setup)
      ensures this.setup == setup && View() == START.watch && continued == []
    {
      this.setup := setup;
      requests, held, released, deadline, continued := [], None, false, None, [];
    }

    ghost function View(): Witness
      reads this
    {
      Witness(requests, held, released, deadline)
    }

    method OnWillBeSent(network: Network)
      modifies this
      ensures View() == SentTurn(setup, old(View()), network) && continued == old(continued)
      ensures requests == old(requests) + if OfSessions(setup.prefixes, network.path) then [network] else []
    {
      TrackedMeans(setup.prefixes, network.path);
      var i := 0;
      while i < |setup.prefixes|
        invariant i <= |setup.prefixes|
        invariant forall j :: 0 <= j < i ==> !(network.path == setup.prefixes[j] || Below(network.path, setup.prefixes[j]))
      {
        if network.path == setup.prefixes[i] || Below(network.path, setup.prefixes[i]) {
          requests := requests + [network];
          return;
        }
        i := i + 1;
      }
    }

    /** `thrown` is the exception that leaves the handler when the session id does not decode. */
    method OnPaused(requestId: nat, networkId: nat, verb: string, now: int) returns (thrown: bool)
      modifies this
      ensures View() == PausedTurn(setup, old(View()), requestId, networkId, verb, now).0
      ensures continued == old(continued) + PausedTurn(setup, old(View()), requestId, networkId, verb, now).1
      ensures thrown <==> Decide(setup, old(View()), requestId, networkId, verb).Throws?
    {
      thrown := false;
      var network := FindNetwork(requests, networkId);
      var segment := if network.Some? then SessionSegment(setup.prefixes, network.value.path) else None;
      if held.None? && setup.except.Some? && verb == "GET" && segment.Some? {
        var sessionId := setup.decode(segment.value);
        if sessionId.None? { return true; }
        if sessionId.value !in setup.except.value {
          held := Some(Held(requestId, network.value.networkId, sessionId.value, network.value.startedAt));
          deadline := Some(now + Max(0, HOLD_MS - (now - network.value.startedAt)));
          return;
        }
      }
      continued := continued + [requestId];
    }

    method ReleaseMetadata()
      modifies this
      ensures View() == Release(old(View())).0 && continued == old(continued) + Release(old(View())).1
    {
      if held.None? || released { return; }
      released := true;
      deadline := None;
      continued := continued + [held.value.requestId];
    }
  }
}
