/** Whole runs of the provider cache: loading, and disposal while loads may still be under way. */
module ProviderRuns {
  import opened ProviderContext

  datatype Event =
    | UseCall(provider: nat)      // some caller asks for a provider
    | ResumeLoad(provider: nat)   // a load goes on after an `await`
    | RegisterCleanup             // somebody who is not a load registers a cleanup, for instance another cleanup
    | DisposeCall
    | DisposeTurn(fails: bool)

  predicate Enabled(g: Graph, c: Ctx, e: Event) {
    match e
    case UseCall(p) => p < |g|
    case ResumeLoad(p) => CanResume(g, c, p)
    case RegisterCleanup => true
    case DisposeCall => c.disposing.None?
    case DisposeTurn(_) => c.disposing.Some?
  }

  function Next(g: Graph, c: Ctx, e: Event): Ctx
    requires Acyclic(g) && Enabled(g, c, e)
  {
    match e
    case UseCall(p) => Use(g, c, p)
    case ResumeLoad(p) => Resume(g, c, p)
    case RegisterCleanup => OnDispose(c, Direct(|c.registered|))
    case DisposeCall => DisposeStart(c)
    case DisposeTurn(fails) => DisposeNext(c, fails)
  }

  ghost predicate Legal(g: Graph, c: Ctx, es: seq<Event>)
    requires Acyclic(g)
    decreases |es|
  {
    es == [] || (Enabled(g, c, es[0]) && Legal(g, Next(g, c, es[0]), es[1..]))
  }

  ghost function Run(g: Graph, c: Ctx, es: seq<Event>): Ctx
    requires Acyclic(g) && Legal(g, c, es)
    decreases |es|
  {
    if es == [] then c else Run(g, Next(g, c, es[0]), es[1..])
  }

  // -------- invariant of whole runs --------

  function Due(c: Ctx): nat { if c.disposing.Some? then c.disposing.value else 0 }

  /** Nothing registered is lost or run twice: it has run, or is still to run. */
  ghost predicate Books(c: Ctx) {
    && Due(c) <= |c.cleanups|
    && multiset(c.registered) == multiset(c.ran) + multiset(c.cleanups[Due(c)..])
    && multiset(c.failures) <= multiset(c.ran)
    && (c.disposing.None? ==> |c.cleanups| <= |c.registered| && c.cleanups == c.registered[|c.registered| - |c.cleanups|..])
  }

  ghost predicate Serials(c: Ctx) {
    forall n: nat :: Direct(n) in c.registered ==> n < |c.registered|
  }

  ghost predicate Inv(g: Graph, c: Ctx) {
    Good(g, c, {}) && Serials(c) && Books(c)
  }

  lemma {:induction false} ReverseSame<T>(s: seq<T>)
    ensures multiset(Reverse(s)) == multiset(s)
  {
    if s != [] {
      ReverseSame(s[1..]);
      assert s == [s[0]] + s[1..];
    }
  }

  /** A turn that only adds cleanups keeps the books. */
  lemma GrowthKeepsBooks(c: Ctx, d: Ctx, more: seq<Cleanup>)
    requires Books(c)
    requires d.registered == c.registered + more && d.cleanups == c.cleanups + more
    requires d.ran == c.ran && d.disposing == c.disposing && d.failures == c.failures
    ensures Books(d)
  {
    assert d.cleanups[Due(d)..] == c.cleanups[Due(c)..] + more;
    if c.disposing.None? {
      assert d.registered[|d.registered| - |d.cleanups|..] == c.registered[|c.registered| - |c.cleanups|..] + more;
    }
  }

  lemma SerialsKept(c: Ctx, d: Ctx, bound: nat, own: set<nat>)
    requires Grows(c, d, bound, own) && Serials(c)
    ensures Serials(d)
  {
    forall n: nat | Direct(n) in d.registered ensures n < |d.registered| {
      var i :| 0 <= i < |d.registered| && d.registered[i] == Direct(n);
      assert d.registered[i] == c.registered[i];
    }
  }

  lemma UseKeeps(g: Graph, c: Ctx, p: nat)
    requires Inv(g, c) && p < |g|
    ensures Inv(g, Use(g, c, p))
  {
    var d := Use(g, c, p);
    UseGood(g, c, p, {});
    SerialsKept(c, d, p + 1, {});
    assert d.registered == c.registered + d.registered[|c.registered|..];
    GrowthKeepsBooks(c, d, d.registered[|c.registered|..]);
  }

  /** Resuming is a turn like any other: only the load itself moves on, to a later action or to its end. */
  lemma ResumeGood(g: Graph, c: Ctx, p: nat)
    requires Good(g, c, {}) && CanResume(g, c, p)
    ensures Good(g, Resume(g, c, p), {}) && p in Resume(g, c, p).values
    ensures Grows(c, Resume(g, c, p).(values := Resume(g, c, p).values[p := c.values[p]]), p, {p})
    ensures var l := Resume(g, c, p).values[p]; l.status != Waiting || l.pc > c.values[p].pc
  {
    BusyToo(g, c, p);
    if c.values[g[p][c.values[p].pc].dep].status == Rejected { ResumeFails(g, c, p); } else { ResumeAdvances(g, c, p); }
  }

  lemma ResumeFails(g: Graph, c: Ctx, p: nat)
    requires Good(g, c, {p} + {}) && CanResume(g, c, p) && At(g, c, p, c.values[p])
    requires c.values[g[p][c.values[p].pc].dep].status == Rejected
    ensures Good(g, Resume(g, c, p), {})
    ensures Resume(g, c, p).(values := Resume(g, c, p).values[p := c.values[p]]) == c
    ensures Grows(c, c, p, {p})
  {
    assert {p} + {} == {} + {p};
    FinishTurn(g, c, p, Load(c.values[p].pc, Rejected), {});
    assert c.values[p := Load(c.values[p].pc, Rejected)][p := c.values[p]] == c.values;
  }

  lemma ResumeAdvances(g: Graph, c: Ctx, p: nat)
    requires CanResume(g, c, p) && Ready(g, c, p, c.values[p].pc + 1, {p})
    requires c.values[g[p][c.values[p].pc].dep].status == Resolved
    ensures Good(g, Resume(g, c, p), {})
    ensures Grows(c, Resume(g, c, p).(values := Resume(g, c, p).values[p := c.values[p]]), p, {p})
    ensures Resume(g, c, p).values[p].pc > c.values[p].pc
  {
    var d, load := ResumeTurn(g, c, p);
    ResumeFinish(g, c, d, p, load);
  }

  lemma ResumeTurn(g: Graph, c: Ctx, p: nat) returns (d: Ctx, load: Load)
    requires CanResume(g, c, p) && Ready(g, c, p, c.values[p].pc + 1, {p})
    requires c.values[g[p][c.values[p].pc].dep].status == Resolved
    ensures Resume(g, c, p) == d.(values := d.values[p := load])
    ensures Good(g, d, {p}) && At(g, d, p, load) && load.pc > c.values[p].pc && Grows(c, d, p, {p})
  {
    d, load := ResumeIs(g, c, p);
    AdvanceGood(g, c, p, c.values[p].pc + 1, {p});
  }

  lemma ResumeIs(g: Graph, c: Ctx, p: nat) returns (d: Ctx, load: Load)
    requires Acyclic(g) && CanResume(g, c, p) && c.values[g[p][c.values[p].pc].dep].status == Resolved
    ensures (d, load) == Advance(g, c, p, c.values[p].pc + 1)
    ensures Resume(g, c, p) == d.(values := d.values[p := load])
  {
    d, load := Advance(g, c, p, c.values[p].pc + 1).0, Advance(g, c, p, c.values[p].pc + 1).1;
  }

  lemma ResumeFinish(g: Graph, c: Ctx, d: Ctx, p: nat, load: Load)
    requires Good(g, d, {p}) && p < |g| && At(g, d, p, load) && p in c.values && c.values[p].status == Waiting
    requires Grows(c, d, p, {p})
    ensures Good(g, d.(values := d.values[p := load]), {})
    ensures d.values[p := load][p := c.values[p]] == d.values
  {
    assert {p} + {} == {} + {p} == {p};
    FinishTurn(g, d, p, load, {});
  }

  lemma BusyToo(g: Graph, c: Ctx, p: nat)
    requires Good(g, c, {}) && CanResume(g, c, p)
    ensures Good(g, c, {p} + {}) && At(g, c, p, c.values[p])
    ensures c.values[g[p][c.values[p].pc].dep].status == Resolved ==> Ready(g, c, p, c.values[p].pc + 1, {p})
  {
    assert At(g, c, p, c.values[p]);
    forall q | q in c.values && q !in {p} ensures At(g, c, q, c.values[q]) {
      assert q !in {};
    }
  }

  lemma ResumeKeeps(g: Graph, c: Ctx, p: nat)
    requires Inv(g, c) && CanResume(g, c, p)
    ensures Inv(g, Resume(g, c, p))
  {
    var d := Resume(g, c, p);
    ResumeGood(g, c, p);
    var e := d.(values := d.values[p := c.values[p]]);
    SerialsKept(c, e, p, {p});
    assert d.registered == c.registered + d.registered[|c.registered|..];
    GrowthKeepsBooks(c, d, d.registered[|c.registered|..]);
  }

  lemma RegisterKeeps(g: Graph, c: Ctx)
    requires Inv(g, c)
    ensures Inv(g, Next(g, c, RegisterCleanup))
  {
    var x := Direct(|c.registered|);
    var d := OnDispose(c, x);
    LoadsSame(g, c, d);
    forall i, e: nat | 0 <= i < |d.registered| && CleanupDependsOn(g, d.registered[i], e)
      ensures AllRegistered(g, e, d.registered[..i])
    {
      assert d.registered[..i] == c.registered[..i];
      assert CleanupDependsOn(g, c.registered[i], e);
    }
    GrowthKeepsBooks(c, d, [x]);
  }

  lemma LoadsSame(g: Graph, c: Ctx, d: Ctx)
    requires Good(g, c, {}) && d.values == c.values
    requires forall q: nat, r: nat :: Of(q, r) in d.registered <==> Of(q, r) in c.registered
    ensures forall q :: q in d.values ==> At(g, d, q, d.values[q])
  {
    forall q | q in d.values ensures At(g, d, q, d.values[q]) {
      assert q !in {} && At(g, c, q, c.values[q]);
      assert Passed(g, d, q, d.values[q].pc);
    }
  }

  lemma DisposeKeeps(g: Graph, c: Ctx, e: Event)
    requires Inv(g, c) && Enabled(g, c, e) && (e == DisposeCall || e.DisposeTurn?)
    ensures Inv(g, Next(g, c, e))
  {
    var d := Next(g, c, e);
    assert d.values == c.values && d.started == c.started && d.registered == c.registered;
    GoodSame(g, c, d);
    DisposeBooks(c, e);
  }

  lemma DisposeBooks(c: Ctx, e: Event)
    requires Books(c) && (e == DisposeCall || e.DisposeTurn?) && (if e == DisposeCall then c.disposing.None? else c.disposing.Some?)
    ensures Books(if e == DisposeCall then DisposeStart(c) else DisposeNext(c, e.fails))
  {
    if e == DisposeCall { DisposeCallBooks(c); } else { DisposeTurnBooks(c, e.fails); }
  }

  lemma GoodSame(g: Graph, c: Ctx, d: Ctx)
    requires Good(g, c, {}) && d.values == c.values && d.started == c.started && d.registered == c.registered
    ensures Good(g, d, {})
  {
    LoadsSame(g, c, d);
  }

  lemma DisposeCallBooks(c: Ctx)
    requires Books(c) && c.disposing.None?
    ensures Books(DisposeStart(c))
  {
    ReverseSame(c.cleanups);
    assert c.cleanups[0..] == c.cleanups && Reverse(c.cleanups)[0..] == Reverse(c.cleanups);
  }

  lemma DisposeTurnBooks(c: Ctx, fails: bool)
    requires Books(c) && c.disposing.Some?
    ensures Books(DisposeNext(c, fails))
  {
    var i := c.disposing.value;
    if i < |c.cleanups| {
      assert c.cleanups[i..] == [c.cleanups[i]] + c.cleanups[i + 1..];
    } else {
      assert c.cleanups[i..] == [] && DisposeNext(c, fails).cleanups[0..] == [];
    }
  }

  lemma StepKeeps(g: Graph, c: Ctx, e: Event)
    requires Inv(g, c) && Enabled(g, c, e)
    ensures Inv(g, Next(g, c, e))
  {
    match e
    case UseCall(p) => UseKeeps(g, c, p);
    case ResumeLoad(p) => ResumeKeeps(g, c, p);
    case RegisterCleanup => RegisterKeeps(g, c);
    case _ => DisposeKeeps(g, c, e);
  }

  lemma {:induction false} RunKeeps(g: Graph, c: Ctx, es: seq<Event>)
    requires Inv(g, c) && Legal(g, c, es)
    ensures Inv(g, Run(g, c, es))
    decreases |es|
  {
    if es != [] {
      StepKeeps(g, c, es[0]);
      RunKeeps(g, Next(g, c, es[0]), es[1..]);
    }
  }
}
