/**
 The run-scoped provider cache of `evals/docs-shots/ctx.ts`.  A provider's load
 is a script: it may use other providers, with or without waiting for them,
 register cleanups, or throw.  Loads run up to their next `await`, and turns of
 different loads and callers interleave freely.

 Providers are numbered so that what a load uses has a smaller number; a graph
 of providers without cycles always has such a numbering.
 */
module ProviderContext {
  import opened Basics

  datatype Action = Await(dep: nat) | Start(dep: nat) | Register | Throw

  type Graph = seq<seq<Action>>

  predicate Uses(a: Action) { a.Await? || a.Start? }

  predicate Acyclic(g: Graph) {
    forall p, k :: 0 <= p < |g| && 0 <= k < |g[p]| && Uses(g[p][k]) ==> g[p][k].dep < p
  }

  /** A load is suspended at action `pc`, or has gone through them all, or has failed at `pc`. */
  datatype Status = Waiting | Resolved | Rejected
  datatype Load = Load(pc: nat, status: Status)

  /** A cleanup registered by a load, named by its place in the script, or by somebody else. */
  datatype Cleanup = Of(provider: nat, at: nat) | Direct(serial: nat)

  /** `values` and `cleanups` are the context's own data and `disposing` the position
      in the disposal loop; the other fields record what has happened. */
  datatype Ctx = Ctx(values: map<nat, Load>, cleanups: seq<Cleanup>, disposing: Option<nat>,
                     started: seq<nat>, registered: seq<Cleanup>, ran: seq<Cleanup>, failures: seq<Cleanup>)

  const EMPTY := Ctx(map[], [], None, [], [], [], [])

  // -------- turns --------

  function OnDispose(c: Ctx, cleanup: Cleanup): Ctx {
    c.(cleanups := c.cleanups + [cleanup], registered := c.registered + [cleanup])
  }

  /** `use`: the value is remembered only after the load has run to its first `await`. */
  function Use(g: Graph, c: Ctx, p: nat): Ctx
    requires Acyclic(g) && p < |g|
    decreases p, |g[p]| + 1
  {
    if p in c.values then c
    else
      var (after, load) := Advance(g, c.(started := c.started + [p]), p, 0);
      after.(values := after.values[p := load])
  }

  /** The load of `p` from action `k` to its next `await` or its end. */
  function Advance(g: Graph, c: Ctx, p: nat, k: nat): (Ctx, Load)
    requires Acyclic(g) && p < |g| && k <= |g[p]|
    decreases p, |g[p]| - k
  {
    if k == |g[p]| then (c, Load(k, Resolved))
    else match g[p][k]
      case Register => Advance(g, OnDispose(c, Of(p, k)), p, k + 1)
      case Start(d) => Advance(g, Use(g, c, d), p, k + 1)
      case Await(d) => (Use(g, c, d), Load(k, Waiting))
      case Throw => (c, Load(k, Rejected))
  }

  predicate CanResume(g: Graph, c: Ctx, p: nat) {
    && p < |g| && p in c.values && c.values[p].status == Waiting
    && c.values[p].pc < |g[p]| && g[p][c.values[p].pc].Await?
    && g[p][c.values[p].pc].dep in c.values
    && c.values[g[p][c.values[p].pc].dep].status != Waiting
  }

  /** The awaited value has settled: the load goes on, or fails with it. */
  function Resume(g: Graph, c: Ctx, p: nat): Ctx
    requires Acyclic(g) && CanResume(g, c, p)
  {
    var k := c.values[p].pc;
    if c.values[g[p][k].dep].status == Rejected then c.(values := c.values[p := Load(k, Rejected)])
    else
      var (after, load) := Advance(g, c, p, k + 1);
      after.(values := after.values[p := load])
  }

  function Reverse<T>(s: seq<T>): (r: seq<T>)
    ensures |r| == |s|
    ensures forall i :: 0 <= i < |s| ==> r[i] == s[|s| - 1 - i]
  {
    if s == [] then [] else Reverse(s[1..]) + [s[0]]
  }

  /** `dispose` reverses the list in place and walks it; the walk sees what is added meanwhile. */
  function DisposeStart(c: Ctx): Ctx { c.(cleanups := Reverse(c.cleanups), disposing := Some(0)) }

  /** The walk takes the next cleanup and waits for it; `fails` says how that ends.  An
      error is caught and logged, and the walk goes on. */
  function DisposeNext(c: Ctx, fails: bool): Ctx
    requires c.disposing.Some?
  {
    var i := c.disposing.value;
    if i < |c.cleanups|
    then c.(ran := c.ran + [c.cleanups[i]], failures := c.failures + (if fails then [c.cleanups[i]] else []), disposing := Some(i + 1))
    else c.(cleanups := [], disposing := None)
  }

  // -------- what holds between and inside turns --------

  /** The load of `p` has registered exactly what its first `k` actions register,
      what it waited for there has resolved, and what it used is in the cache. */
  ghost predicate Passed(g: Graph, c: Ctx, p: nat, k: nat) {
    && p < |g| && k <= |g[p]|
    && (forall r: nat :: Of(p, r) in c.registered <==> r < k && g[p][r] == Register)
    && (forall r: nat :: r < k && g[p][r].Await? ==> g[p][r].dep in c.values && c.values[g[p][r].dep].status == Resolved)
    && (forall r: nat :: r < k && g[p][r].Start? ==> g[p][r].dep in c.values)
    && (forall r: nat :: r < k ==> g[p][r] != Throw)
  }

  ghost predicate At(g: Graph, c: Ctx, p: nat, load: Load) {
    && Passed(g, c, p, load.pc)
    && (load.status == Resolved ==> load.pc == |g[p]|)
    && (load.status == Waiting ==> load.pc < |g[p]| && g[p][load.pc].Await? && g[p][load.pc].dep in c.values)
    && (load.status == Rejected ==> Fails(g, c, p, load.pc))
  }

  ghost predicate Fails(g: Graph, c: Ctx, p: nat, k: nat) {
    && p < |g| && k < |g[p]|
    && (g[p][k] == Throw || (g[p][k].Await? && g[p][k].dep in c.values && c.values[g[p][k].dep].status == Rejected))
  }

  /** What the first `k` actions of `p` depend on by waiting, directly or through others. */
  ghost predicate DependsBefore(g: Graph, p: nat, k: nat, e: nat)
    requires Acyclic(g) && p < |g| && k <= |g[p]|
    decreases p
  {
    exists r: nat :: r < k && g[p][r].Await? && (g[p][r].dep == e || DependsBefore(g, g[p][r].dep, |g[g[p][r].dep]|, e))
  }

  ghost predicate AllRegistered(g: Graph, e: nat, log: seq<Cleanup>) {
    e < |g| && forall r: nat :: r < |g[e]| && g[e][r] == Register ==> Of(e, r) in log
  }

  /** A cleanup is registered after every cleanup of everything its load had waited for. */
  ghost predicate Ordered(g: Graph, log: seq<Cleanup>)
    requires Acyclic(g)
  {
    forall i, e: nat :: 0 <= i < |log| && CleanupDependsOn(g, log[i], e) ==> AllRegistered(g, e, log[..i])
  }

  /** The load had waited for `e` when it registered this cleanup. */
  ghost predicate CleanupDependsOn(g: Graph, x: Cleanup, e: nat)
    requires Acyclic(g)
  {
    x.Of? && x.provider < |g| && x.at < |g[x.provider]| && DependsBefore(g, x.provider, x.at, e)
  }

  /** `busy` are the loads in the middle of a turn. */
  ghost predicate Good(g: Graph, c: Ctx, busy: set<nat>) {
    && Acyclic(g)
    && Distinct(c.started)
    && (forall p :: p in c.started <==> p in c.values || p in busy)
    && (forall p :: p in c.values ==> p < |g|)
    && (forall p :: p in c.values && p !in busy ==> At(g, c, p, c.values[p]))
    && (forall q: nat, r: nat :: Of(q, r) in c.registered ==> (q in c.values || q in busy) && q < |g| && r < |g[q]|)
    && Distinct(c.registered)
    && Ordered(g, c.registered)
  }

  /** From `c` to `d` nothing recorded changes, and what is new belongs to
      providers below `bound` that were not in the cache, or to `own`. */
  ghost predicate Grows(c: Ctx, d: Ctx, bound: nat, own: set<nat>) {
    && (forall q :: q in c.values ==> q in d.values && d.values[q] == c.values[q])
    && (forall q :: q in d.values && q !in c.values ==> q < bound)
    && c.registered <= d.registered
    && (forall i :: |c.registered| <= i < |d.registered| ==> NewCleanup(c, d.registered[i], bound, own))
    && c.started <= d.started
    && d.ran == c.ran && d.disposing == c.disposing && d.failures == c.failures
    && d.cleanups == c.cleanups + d.registered[|c.registered|..]
  }

  ghost predicate NewCleanup(c: Ctx, x: Cleanup, bound: nat, own: set<nat>) {
    x.Of? && ((x.provider < bound && x.provider !in c.values) || x.provider in own)
  }

  // -------- a turn keeps it --------

  lemma GrowsTransitive(c: Ctx, d: Ctx, e: Ctx, low: nat, bound: nat, own: set<nat>)
    requires (Grows(c, d, low, {}) || Grows(c, d, low, own)) && Grows(d, e, bound, own) && low <= bound
    ensures Grows(c, e, bound, own)
  {
    assert e.registered[|c.registered|..] == d.registered[|c.registered|..] + e.registered[|d.registered|..];
  }

  lemma {:induction false} Complete(g: Graph, c: Ctx, busy: set<nat>, p: nat, k: nat, e: nat)
    requires Good(g, c, busy) && (forall b :: b in busy ==> p <= b)
    requires Passed(g, c, p, k) && DependsBefore(g, p, k, e)
    ensures AllRegistered(g, e, c.registered)
    decreases p
  {
    var r: nat :| r < k && g[p][r].Await? && (g[p][r].dep == e || DependsBefore(g, g[p][r].dep, |g[g[p][r].dep]|, e));
    var m := g[p][r].dep;
    assert Uses(g[p][r]);
    assert At(g, c, m, c.values[m]);
    if m != e { Complete(g, c, busy, m, |g[m]|, e); }
  }

  lemma RegisterGood(g: Graph, c: Ctx, busy: set<nat>, p: nat, k: nat)
    requires Good(g, c, busy) && p in busy && (forall b :: b in busy ==> p <= b)
    requires Passed(g, c, p, k) && k < |g[p]| && g[p][k] == Register
    ensures Good(g, OnDispose(c, Of(p, k)), busy) && Passed(g, OnDispose(c, Of(p, k)), p, k + 1)
  {
    var d := OnDispose(c, Of(p, k));
    forall q | q in d.values && q !in busy ensures At(g, d, q, d.values[q]) {
      assert At(g, c, q, c.values[q]);
    }
    RegisterOrdered(g, c, busy, p, k);
  }

  lemma RegisterOrdered(g: Graph, c: Ctx, busy: set<nat>, p: nat, k: nat)
    requires Good(g, c, busy) && p in busy && (forall b :: b in busy ==> p <= b)
    requires Passed(g, c, p, k) && k < |g[p]| && g[p][k] == Register
    ensures Ordered(g, OnDispose(c, Of(p, k)).registered)
  {
    var d := OnDispose(c, Of(p, k));
    forall i, e: nat | 0 <= i < |d.registered| && CleanupDependsOn(g, d.registered[i], e)
      ensures AllRegistered(g, e, d.registered[..i])
    {
      if i < |c.registered| {
        assert d.registered[..i] == c.registered[..i];
        assert CleanupDependsOn(g, c.registered[i], e);
      } else {
        assert d.registered[..i] == c.registered;
        Complete(g, c, busy, p, k, e);
      }
    }
  }

  lemma {:induction false} UseGood(g: Graph, c: Ctx, p: nat, busy: set<nat>)
    requires Good(g, c, busy) && p < |g| && (forall b :: b in busy ==> p < b)
    ensures Good(g, Use(g, c, p), busy) && p in Use(g, c, p).values
    ensures Grows(c, Use(g, c, p), p + 1, {})
    decreases p, |g[p]| + 1
  {
    if p !in c.values {
      var c0 := c.(started := c.started + [p]);
      StartedReady(g, c, p, busy);
      AdvanceGood(g, c0, p, 0, busy + {p});
      var turn := Advance(g, c0, p, 0);
      FinishTurn(g, turn.0, p, turn.1, busy);
      UseGrows(c, turn.0, p, turn.1);
    }
  }

  lemma StartedReady(g: Graph, c: Ctx, p: nat, busy: set<nat>)
    requires Good(g, c, busy) && p < |g| && (forall b :: b in busy ==> p < b) && p !in c.values
    ensures Ready(g, c.(started := c.started + [p]), p, 0, busy + {p})
  {
    var c0 := c.(started := c.started + [p]);
    forall q | q in c0.values && q !in busy + {p} ensures At(g, c0, q, c0.values[q]) {
      assert At(g, c, q, c.values[q]);
    }
  }

  lemma UseGrows(c: Ctx, d: Ctx, p: nat, load: Load)
    requires Grows(c.(started := c.started + [p]), d, p, {p}) && p !in c.values
    ensures Grows(c, d.(values := d.values[p := load]), p + 1, {})
  {
  }

  /** Storing the load's new state ends the turn. */
  lemma FinishTurn(g: Graph, c: Ctx, p: nat, load: Load, busy: set<nat>)
    requires Good(g, c, busy + {p}) && p !in busy && p < |g| && At(g, c, p, load)
    requires p in c.values ==> c.values[p].status == Waiting
    ensures Good(g, c.(values := c.values[p := load]), busy)
  {
    var d := c.(values := c.values[p := load]);
    forall q | q in d.values && q !in busy ensures At(g, d, q, d.values[q]) {
      if q != p { assert At(g, c, q, c.values[q]); }
      assert At(g, c, q, d.values[q]);
      assert Passed(g, d, q, d.values[q].pc);
    }
  }

  /** A load in the middle of its turn, about to do action `k`; it is the lowest of those under way. */
  ghost predicate Ready(g: Graph, c: Ctx, p: nat, k: nat, busy: set<nat>) {
    && Good(g, c, busy) && p in busy && (forall b :: b in busy ==> p <= b)
    && Passed(g, c, p, k) && (p in c.values ==> c.values[p].status == Waiting)
  }

  lemma {:induction false} AdvanceGood(g: Graph, c: Ctx, p: nat, k: nat, busy: set<nat>)
    requires Ready(g, c, p, k, busy)
    ensures var (d, load) := Advance(g, c, p, k);
            Good(g, d, busy) && At(g, d, p, load) && load.pc >= k && Grows(c, d, p, {p})
    decreases p, |g[p]| - k
  {
    if k == |g[p]| || g[p][k] == Throw {
    } else if g[p][k].Await? {
      AwaitGood(g, c, p, k, busy);
    } else {
      var d := if g[p][k] == Register then OnDispose(c, Of(p, k)) else Use(g, c, g[p][k].dep);
      if g[p][k] == Register { RegisterReady(g, c, p, k, busy); } else { StartReady(g, c, p, k, busy); }
      AdvanceGood(g, d, p, k + 1, busy);
      GrowsTransitive(c, d, Advance(g, d, p, k + 1).0, p, p, {p});
    }
  }

  lemma RegisterReady(g: Graph, c: Ctx, p: nat, k: nat, busy: set<nat>)
    requires Ready(g, c, p, k, busy) && k < |g[p]| && g[p][k] == Register
    ensures Ready(g, OnDispose(c, Of(p, k)), p, k + 1, busy) && Grows(c, OnDispose(c, Of(p, k)), p, {p})
  {
    RegisterGood(g, c, busy, p, k);
  }

  lemma {:induction false} StartReady(g: Graph, c: Ctx, p: nat, k: nat, busy: set<nat>)
    requires Ready(g, c, p, k, busy) && k < |g[p]| && g[p][k].Start?
    ensures Ready(g, Use(g, c, g[p][k].dep), p, k + 1, busy) && Grows(c, Use(g, c, g[p][k].dep), p, {p})
    decreases p, |g[p]| - k, 0
  {
    var dep := g[p][k].dep;
    assert Uses(g[p][k]);
    UseGood(g, c, dep, busy);
    UsePassed(g, c, Use(g, c, dep), p, k, dep);
  }

  lemma {:induction false} AwaitGood(g: Graph, c: Ctx, p: nat, k: nat, busy: set<nat>)
    requires Ready(g, c, p, k, busy) && k < |g[p]| && g[p][k].Await?
    ensures var d := Use(g, c, g[p][k].dep);
            Good(g, d, busy) && At(g, d, p, Load(k, Waiting)) && Grows(c, d, p, {p})
    decreases p, |g[p]| - k, 0
  {
    var dep := g[p][k].dep;
    assert Uses(g[p][k]);
    UseGood(g, c, dep, busy);
    UsePassed(g, c, Use(g, c, dep), p, k, dep);
  }

  lemma UsePassed(g: Graph, c: Ctx, d: Ctx, p: nat, k: nat, dep: nat)
    requires Passed(g, c, p, k) && dep < p && Grows(c, d, dep + 1, {})
    ensures Passed(g, d, p, k)
    ensures k < |g[p]| && g[p][k] == Start(dep) && dep in d.values ==> Passed(g, d, p, k + 1)
  {
  }
}
