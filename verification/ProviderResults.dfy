/** The promises of the provider cache: every load once, every load to its end, cleanups in the right order. */
module ProviderResults {
  import opened Basics
  import opened ProviderContext
  import opened ProviderRuns

  lemma EmptyInv(g: Graph)
    requires Acyclic(g)
    ensures Inv(g, EMPTY)
  {
  }

  ghost predicate Reachable(g: Graph, c: Ctx)
    requires Acyclic(g)
  {
    exists es :: Legal(g, EMPTY, es) && Run(g, EMPTY, es) == c
  }

  lemma ReachableInv(g: Graph, c: Ctx)
    requires Acyclic(g) && Reachable(g, c)
    ensures Inv(g, c)
  {
    var es :| Legal(g, EMPTY, es) && Run(g, EMPTY, es) == c;
    EmptyInv(g);
    RunKeeps(g, EMPTY, es);
  }

  // -------- loading --------

  /** However callers and loads interleave, each provider asked for is loaded
      exactly once, and a load that has resolved has everything it used in the
      cache, with what it waited for resolved. */
  lemma LoadedOnce(g: Graph, c: Ctx)
    requires Acyclic(g) && Reachable(g, c)
    ensures Distinct(c.started) && forall p :: p in c.started <==> p in c.values
    ensures forall p, k :: p in c.values && p < |g| && c.values[p].status == Resolved && 0 <= k < |g[p]| && Uses(g[p][k]) ==>
              g[p][k].dep in c.started && (g[p][k].Await? ==> c.values[g[p][k].dep].status == Resolved)
  {
    ReachableInv(g, c);
    forall p, k | p in c.values && p < |g| && c.values[p].status == Resolved && 0 <= k < |g[p]| && Uses(g[p][k])
      ensures g[p][k].dep in c.started && (g[p][k].Await? ==> c.values[g[p][k].dep].status == Resolved)
    {
      assert p !in {} && At(g, c, p, c.values[p]);
    }
  }

  /** `q` is what load `p` stands at, or what that stands at waiting, and so on. */
  ghost predicate StandsOn(g: Graph, c: Ctx, p: nat, q: nat)
    requires Acyclic(g)
    decreases p
  {
    p == q ||
    (p < |g| && p in c.values && c.values[p].pc < |g[p]| && g[p][c.values[p].pc].Await?
     && g[p][c.values[p].pc].dep < p && StandsOn(g, c, g[p][c.values[p].pc].dep, q))
  }

  /** A failed load has a provider that throws at the end of a chain of waits, each for the next. */
  lemma {:induction false} FailureHasCause(g: Graph, c: Ctx, p: nat) returns (q: nat)
    requires Acyclic(g) && Inv(g, c) && p in c.values && c.values[p].status == Rejected
    ensures q in c.values && q < |g| && c.values[q].pc < |g[q]| && g[q][c.values[q].pc] == Throw
    ensures StandsOn(g, c, p, q)
    decreases p
  {
    assert p !in {} && At(g, c, p, c.values[p]);
    var k := c.values[p].pc;
    if g[p][k] == Throw { return p; }
    assert Uses(g[p][k]);
    q := FailureHasCause(g, c, g[p][k].dep);
  }

  /** There is no deadlock: at the end of the chain of waits at which a suspended load
      stands there is one that can go on. */
  lemma {:induction false} SomebodyCanResume(g: Graph, c: Ctx, p: nat) returns (q: nat)
    requires Acyclic(g) && Inv(g, c) && p in c.values && c.values[p].status == Waiting
    ensures StandsOn(g, c, p, q) && CanResume(g, c, q)
    decreases p
  {
    assert p !in {} && At(g, c, p, c.values[p]);
    var dep := g[p][c.values[p].pc].dep;
    if c.values[dep].status != Waiting { return p; }
    assert Uses(g[p][c.values[p].pc]);
    q := SomebodyCanResume(g, c, dep);
  }

  /** How many more turns the load of `p` can take. */
  ghost function Left(g: Graph, c: Ctx, p: nat): nat
    requires p < |g|
  {
    if p !in c.values then |g[p]| + 2
    else if c.values[p].status == Waiting && c.values[p].pc <= |g[p]| then |g[p]| + 1 - c.values[p].pc
    else 0
  }

  ghost function Work(g: Graph, c: Ctx, n: nat): nat
    requires n <= |g|
  {
    if n == 0 then 0 else Work(g, c, n - 1) + Left(g, c, n - 1)
  }

  lemma {:induction false} WorkShrinks(g: Graph, c: Ctx, d: Ctx, n: nat)
    requires n <= |g| && forall p :: 0 <= p < n ==> Left(g, d, p) <= Left(g, c, p)
    ensures Work(g, d, n) <= Work(g, c, n)
    ensures (exists p :: 0 <= p < n && Left(g, d, p) < Left(g, c, p)) ==> Work(g, d, n) < Work(g, c, n)
  {
    if n > 0 { WorkShrinks(g, c, d, n - 1); }
  }

  lemma GrowthShrinks(g: Graph, c: Ctx, d: Ctx, bound: nat, own: set<nat>)
    requires Good(g, d, {}) && Grows(c, d, bound, own)
    ensures forall p :: 0 <= p < |g| ==> Left(g, d, p) <= Left(g, c, p)
  {
  }

  function Resumes(es: seq<Event>): nat
    decreases |es|
  {
    if es == [] then 0 else (if es[0].ResumeLoad? then 1 else 0) + Resumes(es[1..])
  }

  lemma ResumeShrinks(g: Graph, c: Ctx, p: nat)
    requires Inv(g, c) && CanResume(g, c, p)
    ensures Work(g, Resume(g, c, p), |g|) < Work(g, c, |g|)
  {
    var d := Resume(g, c, p);
    ResumeGood(g, c, p);
    assert p !in {} && At(g, d, p, d.values[p]);
    assert Left(g, d, p) < Left(g, c, p);
    forall q | 0 <= q < |g| ensures Left(g, d, q) <= Left(g, c, q) {
      if q != p && q in c.values {
        assert d.values[q] == d.values[p := c.values[p]][q] == c.values[q];
      }
    }
    WorkShrinks(g, c, d, |g|);
  }

  lemma StepShrinks(g: Graph, c: Ctx, e: Event)
    requires Inv(g, c) && Enabled(g, c, e)
    ensures Work(g, Next(g, c, e), |g|) + (if e.ResumeLoad? then 1 else 0) <= Work(g, c, |g|)
  {
    match e
    case ResumeLoad(p) => ResumeShrinks(g, c, p);
    case UseCall(p) => UseShrinks(g, c, p);
    case _ => WorkShrinks(g, c, Next(g, c, e), |g|);
  }

  lemma UseShrinks(g: Graph, c: Ctx, p: nat)
    requires Inv(g, c) && p < |g|
    ensures Work(g, Use(g, c, p), |g|) <= Work(g, c, |g|)
  {
    UseGood(g, c, p, {});
    GrowthShrinks(g, c, Use(g, c, p), p + 1, {});
    WorkShrinks(g, c, Use(g, c, p), |g|);
  }

  /** Loading ends under every schedule: the turns loads take in a run are paid
      for by the work left at its start. */
  lemma {:induction false} ResumesBounded(g: Graph, c: Ctx, es: seq<Event>)
    requires Inv(g, c) && Legal(g, c, es)
    ensures Resumes(es) + Work(g, Run(g, c, es), |g|) <= Work(g, c, |g|)
    decreases |es|
  {
    if es != [] {
      StepKeeps(g, c, es[0]);
      StepShrinks(g, c, es[0]);
      ResumesBounded(g, Next(g, c, es[0]), es[1..]);
    }
  }

  /** So `use` comes to an end: runs take boundedly many load turns, and a run in
      which no load can take another has settled everything that was asked for. */
  lemma UseSettles(g: Graph, es: seq<Event>)
    requires Acyclic(g) && Legal(g, EMPTY, es)
    ensures Resumes(es) <= Work(g, EMPTY, |g|)
    ensures var c := Run(g, EMPTY, es);
            (forall p: nat :: !CanResume(g, c, p)) <==> forall p :: p in c.values ==> c.values[p].status != Waiting
  {
    EmptyInv(g);
    RunKeeps(g, EMPTY, es);
    ResumesBounded(g, EMPTY, es);
    var c := Run(g, EMPTY, es);
    if p :| p in c.values && c.values[p].status == Waiting {
      var q := SomebodyCanResume(g, c, p);
    }
  }

  // -------- disposal --------

  /** At any time, over any run, with loads still going on, disposal repeated or not
      and cleanups failing or not: every registered cleanup has run once or is still
      due once, none both; and those that failed are among those that ran. */
  lemma CleanupsRunOnce(g: Graph, c: Ctx)
    requires Acyclic(g) && Reachable(g, c)
    ensures Due(c) <= |c.cleanups|
    ensures multiset(c.registered) == multiset(c.ran) + multiset(c.cleanups[Due(c)..])
    ensures Distinct(c.registered) && multiset(c.failures) <= multiset(c.ran)
    ensures forall x :: multiset(c.ran)[x] + multiset(c.cleanups[Due(c)..])[x] == if x in c.registered then 1 else 0
  {
    ReachableInv(g, c);
    forall x ensures multiset(c.registered)[x] == if x in c.registered then 1 else 0 {
      DistinctCount(c.registered, x);
    }
  }

  lemma {:induction false} DistinctCount<T>(s: seq<T>, x: T)
    requires Distinct(s)
    ensures multiset(s)[x] == if x in s then 1 else 0
  {
    if s != [] {
      DistinctCount(s[1..], x);
      assert s == [s[0]] + s[1..];
      assert s[0] !in s[1..];
    }
  }

  /** What one disposal runs: the cleanups there were, last registered first, and
      then those registered meanwhile, in order of registration. */
  ghost function RunByDisposal(c: Ctx, d: Ctx): seq<Cleanup>
    requires |c.registered| <= |d.registered|
  {
    Reverse(c.cleanups) + d.registered[|c.registered|..]
  }

  /** `d` is in the middle of the disposal that began at `c`. */
  ghost predicate During(c: Ctx, d: Ctx) {
    && d.disposing.Some? && d.disposing.value <= |d.cleanups|
    && c.registered <= d.registered
    && d.cleanups == Reverse(c.cleanups) + d.registered[|c.registered|..]
    && d.ran == c.ran + d.cleanups[..d.disposing.value]
  }

  /** The disposal that began at `c` is over: its walk found no further cleanup in state `d`. */
  ghost predicate Ended(c: Ctx, d: Ctx, e: Ctx) {
    && During(c, d) && e.disposing.None? && e.cleanups == [] && e.registered == d.registered
    && e.ran == c.ran + RunByDisposal(c, d)
  }

  lemma DuringStep(g: Graph, c: Ctx, d: Ctx, e: Event)
    requires Inv(g, d) && During(c, d) && Enabled(g, d, e)
    ensures During(c, Next(g, d, e)) || (e.DisposeTurn? && Ended(c, d, Next(g, d, e)))
  {
    if e.DisposeTurn? {
      DuringTurn(c, d, e.fails);
    } else {
      AddsOnly(g, d, e);
      DuringGrows(c, d, Next(g, d, e));
    }
  }

  lemma AddsOnly(g: Graph, d: Ctx, e: Event)
    requires Inv(g, d) && Enabled(g, d, e) && !e.DisposeTurn? && !e.DisposeCall?
    ensures var n := Next(g, d, e);
            d.registered <= n.registered && n.cleanups == d.cleanups + n.registered[|d.registered|..]
            && n.ran == d.ran && n.disposing == d.disposing
  {
    match e
    case UseCall(p) => UseGood(g, d, p, {});
    case ResumeLoad(p) => ResumeGood(g, d, p);
    case RegisterCleanup =>
  }

  lemma DuringTurn(c: Ctx, d: Ctx, fails: bool)
    requires During(c, d)
    ensures During(c, DisposeNext(d, fails)) || Ended(c, d, DisposeNext(d, fails))
    ensures d.disposing.value == |d.cleanups| ==> Ended(c, d, DisposeNext(d, fails))
  {
    var i := d.disposing.value;
    if i < |d.cleanups| {
      assert d.cleanups[..i + 1] == d.cleanups[..i] + [d.cleanups[i]];
    } else {
      assert d.cleanups[..i] == d.cleanups;
    }
  }

  lemma DuringGrows(c: Ctx, d: Ctx, e: Ctx)
    requires During(c, d)
    requires d.registered <= e.registered && e.cleanups == d.cleanups + e.registered[|d.registered|..]
    requires e.ran == d.ran && e.disposing == d.disposing
    ensures During(c, e)
  {
    assert e.registered[|c.registered|..] == d.registered[|c.registered|..] + e.registered[|d.registered|..];
    assert e.cleanups[..e.disposing.value] == d.cleanups[..d.disposing.value];
  }

  /** Every state strictly inside the run is still disposing. */
  ghost predicate StillDisposing(g: Graph, d: Ctx, es: seq<Event>)
    requires Acyclic(g) && Legal(g, d, es)
    decreases |es|
  {
    d.disposing.Some? && (es != [] ==> StillDisposing(g, Next(g, d, es[0]), es[1..]))
  }

  lemma {:induction false} DuringRun(g: Graph, c: Ctx, d: Ctx, es: seq<Event>)
    requires Inv(g, d) && During(c, d) && Legal(g, d, es) && StillDisposing(g, d, es)
    ensures Inv(g, Run(g, d, es)) && During(c, Run(g, d, es))
    decreases |es|
  {
    if es != [] {
      StepKeeps(g, d, es[0]);
      DuringStep(g, c, d, es[0]);
      DuringRun(g, c, Next(g, d, es[0]), es[1..]);
    }
  }

  /** However its cleanups end, a disposal goes through all of them in that order, and then is over. */
  lemma DisposalOrder(g: Graph, c: Ctx, es: seq<Event>, d: Ctx, fails: bool)
    requires Inv(g, c) && c.disposing.None? && Legal(g, DisposeStart(c), es)
    requires StillDisposing(g, DisposeStart(c), es) && d == Run(g, DisposeStart(c), es)
    requires d.disposing == Some(|d.cleanups|)
    ensures Inv(g, d) && Ended(c, d, DisposeNext(d, fails))
  {
    DisposeKeeps(g, c, DisposeCall);
    DuringStart(c);
    DuringRun(g, c, DisposeStart(c), es);
    DuringTurn(c, d, fails);
  }

  lemma DuringStart(c: Ctx)
    requires c.disposing.None?
    ensures During(c, DisposeStart(c))
  {
    assert c.registered[|c.registered|..] == [];
  }

  /** Among the cleanups of one disposal, one that depends on provider `e` runs
      before a cleanup of `e` exactly when it was registered before the disposal
      began; a cleanup registered too late runs after those it depends on. */
  lemma DependentsFirst(g: Graph, c: Ctx, es: seq<Event>, d: Ctx, a: nat, b: nat, e: nat)
    requires Inv(g, c) && c.disposing.None? && Legal(g, DisposeStart(c), es)
    requires StillDisposing(g, DisposeStart(c), es) && d == Run(g, DisposeStart(c), es)
    requires d.disposing == Some(|d.cleanups|) && |c.registered| <= |d.registered|
    requires a < |RunByDisposal(c, d)| && b < |RunByDisposal(c, d)|
    requires CleanupDependsOn(g, RunByDisposal(c, d)[a], e)
    requires RunByDisposal(c, d)[b].Of? && RunByDisposal(c, d)[b].provider == e
    ensures a < b <==> RunByDisposal(c, d)[a] in c.cleanups
  {
    DisposalOrder(g, c, es, d, false);
    OrderInRun(g, c, d, a, b, e);
  }

  lemma OrderInRun(g: Graph, c: Ctx, d: Ctx, a: nat, b: nat, e: nat)
    requires Inv(g, d) && |c.cleanups| <= |c.registered| && c.registered <= d.registered
    requires c.cleanups == c.registered[|c.registered| - |c.cleanups|..]
    requires a < |RunByDisposal(c, d)| && b < |RunByDisposal(c, d)|
    requires CleanupDependsOn(g, RunByDisposal(c, d)[a], e)
    requires RunByDisposal(c, d)[b].Of? && RunByDisposal(c, d)[b].provider == e
    ensures a < b <==> RunByDisposal(c, d)[a] in c.cleanups
  {
    var i, j := WasAt(c, d, a), WasAt(c, d, b);
    assert AllRegistered(g, e, d.registered[..i]);
    IsRegister(g, d, d.registered[j]);
    var h :| 0 <= h < i && d.registered[..i][h] == d.registered[j];
    assert h == j;
    InCleanups(c, d, a, i);
  }

  /** Where the `n`-th cleanup of the disposal stands in the order of registration. */
  function WasAt(c: Ctx, d: Ctx, n: nat): (i: nat)
    requires |c.cleanups| <= |c.registered| <= |d.registered|
    requires c.cleanups == c.registered[|c.registered| - |c.cleanups|..] && c.registered <= d.registered
    requires n < |RunByDisposal(c, d)|
    ensures i < |d.registered| && d.registered[i] == RunByDisposal(c, d)[n]
    ensures i == if n < |c.cleanups| then |c.registered| - 1 - n else |c.registered| + n - |c.cleanups|
  {
    if n < |c.cleanups| then |c.registered| - 1 - n else |c.registered| + n - |c.cleanups|
  }

  /** Any two cleanups of one disposal, the first of which was registered earlier: it
      runs earlier exactly if the other was registered only during the disposal. */
  lemma CleanupOrder(g: Graph, c: Ctx, es: seq<Event>, d: Ctx, a: nat, b: nat, i: nat, j: nat)
    requires Inv(g, c) && c.disposing.None? && Legal(g, DisposeStart(c), es)
    requires StillDisposing(g, DisposeStart(c), es) && d == Run(g, DisposeStart(c), es)
    requires d.disposing == Some(|d.cleanups|) && |c.registered| <= |d.registered|
    requires a < |RunByDisposal(c, d)| && b < |RunByDisposal(c, d)| && i < j < |d.registered|
    requires d.registered[i] == RunByDisposal(c, d)[a] && d.registered[j] == RunByDisposal(c, d)[b]
    ensures a < b <==> RunByDisposal(c, d)[b] !in c.cleanups
  {
    DisposalOrder(g, c, es, d, false);
    OrderByPlace(c, d, a, b, i, j);
  }

  lemma OrderByPlace(c: Ctx, d: Ctx, a: nat, b: nat, i: nat, j: nat)
    requires |c.cleanups| <= |c.registered| <= |d.registered| && Distinct(d.registered)
    requires c.cleanups == c.registered[|c.registered| - |c.cleanups|..] && c.registered <= d.registered
    requires a < |RunByDisposal(c, d)| && b < |RunByDisposal(c, d)| && i < j < |d.registered|
    requires d.registered[i] == RunByDisposal(c, d)[a] && d.registered[j] == RunByDisposal(c, d)[b]
    ensures a < b <==> RunByDisposal(c, d)[b] !in c.cleanups
  {
    assert WasAt(c, d, a) == i && WasAt(c, d, b) == j;
    InCleanups(c, d, b, j);
  }

  /** So a load that registers a cleanup first and uses `e` later, where nobody has
      started `e` yet: `c0` is the state in the middle of its turn, just before it
      registers.  Both cleanups being registered before the disposal begins, the one of
      `e` runs first, although the load goes on to depend on `e`. */
  lemma RegisteredBeforeUse(g: Graph, c0: Ctx, p: nat, k: nat, busy: set<nat>,
                            c: Ctx, es: seq<Event>, d: Ctx, a: nat, b: nat, e: nat)
    requires Ready(g, c0, p, k, busy) && k < |g[p]| && g[p][k] == Register && e !in c0.values && e !in busy
    requires OnDispose(c0, Of(p, k)).registered <= d.registered
    requires Inv(g, c) && c.disposing.None? && Legal(g, DisposeStart(c), es)
    requires StillDisposing(g, DisposeStart(c), es) && d == Run(g, DisposeStart(c), es)
    requires d.disposing == Some(|d.cleanups|) && |c.registered| <= |d.registered|
    requires a < |RunByDisposal(c, d)| && RunByDisposal(c, d)[a] == Of(p, k)
    requires b < |RunByDisposal(c, d)| && RunByDisposal(c, d)[b].Of? && RunByDisposal(c, d)[b].provider == e
    ensures a < b <==> RunByDisposal(c, d)[b] !in c.cleanups
  {
    DisposalOrder(g, c, es, d, false);
    var j := WasAt(c, d, b);
    NotYetRegistered(g, c0, p, k, busy, d.registered, j, e);
    OrderByPlace(c, d, a, b, |c0.registered|, j);
  }

  lemma NotYetRegistered(g: Graph, c0: Ctx, p: nat, k: nat, busy: set<nat>, log: seq<Cleanup>, j: nat, e: nat)
    requires Ready(g, c0, p, k, busy) && e !in c0.values && e !in busy
    requires OnDispose(c0, Of(p, k)).registered <= log && j < |log| && log[j].Of? && log[j].provider == e
    ensures |c0.registered| < j && log[|c0.registered|] == Of(p, k)
  {
    assert log[|c0.registered|] == OnDispose(c0, Of(p, k)).registered[|c0.registered|];
    forall h | 0 <= h < |c0.registered| && c0.registered[h].Of? ensures c0.registered[h].provider != e {
      assert Of(c0.registered[h].provider, c0.registered[h].at) in c0.registered;
    }
    assert forall h :: 0 <= h < |c0.registered| ==> log[h] == c0.registered[h];
  }

  lemma InCleanups(c: Ctx, d: Ctx, n: nat, i: nat)
    requires |c.cleanups| <= |c.registered| <= |d.registered| && Distinct(d.registered)
    requires c.cleanups == c.registered[|c.registered| - |c.cleanups|..] && c.registered <= d.registered
    requires n < |RunByDisposal(c, d)| && i == WasAt(c, d, n)
    ensures d.registered[i] in c.cleanups <==> n < |c.cleanups|
  {
    if d.registered[i] in c.cleanups {
      var k :| 0 <= k < |c.cleanups| && c.cleanups[k] == d.registered[i];
      assert d.registered[|c.registered| - |c.cleanups| + k] == d.registered[i];
    }
    if n < |c.cleanups| { assert c.cleanups[|c.cleanups| - 1 - n] == d.registered[i]; }
  }

  lemma IsRegister(g: Graph, d: Ctx, y: Cleanup)
    requires Inv(g, d) && y.Of? && y in d.registered
    ensures y.provider < |g| && y.at < |g[y.provider]| && g[y.provider][y.at] == Register
  {
    assert Of(y.provider, y.at) in d.registered;
    assert y.provider !in {} && At(g, d, y.provider, d.values[y.provider]);
  }
}
