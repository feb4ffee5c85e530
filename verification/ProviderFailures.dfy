/** Cleanups that fail change nothing but the log of failures. */
module ProviderFailures {
  import opened Basics
  import opened ProviderContext
  import opened ProviderRuns

  /** The context but for the log. */
  function Blank(c: Ctx): Ctx { c.(failures := []) }

  lemma {:induction false} UseBlank(g: Graph, c: Ctx, d: Ctx, p: nat)
    requires Acyclic(g) && p < |g| && Blank(c) == Blank(d)
    ensures Blank(Use(g, c, p)) == Blank(Use(g, d, p))
    decreases p, |g[p]| + 1
  {
    if p !in c.values {
      AdvanceBlank(g, c.(started := c.started + [p]), d.(started := d.started + [p]), p, 0);
    }
  }

  lemma {:induction false} AdvanceBlank(g: Graph, c: Ctx, d: Ctx, p: nat, k: nat)
    requires Acyclic(g) && p < |g| && k <= |g[p]| && Blank(c) == Blank(d)
    ensures Blank(Advance(g, c, p, k).0) == Blank(Advance(g, d, p, k).0)
    ensures Advance(g, c, p, k).1 == Advance(g, d, p, k).1
    decreases p, |g[p]| - k
  {
    if k < |g[p]| {
      assert Uses(g[p][k]) ==> g[p][k].dep < p;
      match g[p][k]
      case Register => AdvanceBlank(g, OnDispose(c, Of(p, k)), OnDispose(d, Of(p, k)), p, k + 1);
      case Start(dep) =>
        UseBlank(g, c, d, dep);
        AdvanceBlank(g, Use(g, c, dep), Use(g, d, dep), p, k + 1);
      case Await(dep) => UseBlank(g, c, d, dep);
      case Throw =>
    }
  }

  predicate SameButOutcome(e: Event, f: Event) { e == f || (e.DisposeTurn? && f.DisposeTurn?) }

  ghost predicate SameButOutcomes(es: seq<Event>, fs: seq<Event>) {
    |es| == |fs| && forall i :: 0 <= i < |es| ==> SameButOutcome(es[i], fs[i])
  }

  lemma StepBlank(g: Graph, c: Ctx, d: Ctx, e: Event, f: Event)
    requires Acyclic(g) && Blank(c) == Blank(d) && Enabled(g, c, e) && SameButOutcome(e, f)
    ensures Enabled(g, d, f) && Blank(Next(g, c, e)) == Blank(Next(g, d, f))
  {
    match e
    case UseCall(p) => UseBlank(g, c, d, p);
    case ResumeLoad(p) =>
      var k := c.values[p].pc;
      AdvanceBlank(g, c, d, p, k + 1);
    case _ =>
  }

  /** Two runs that differ only in how cleanups end run the same cleanups in the same
      order, load the same and end in the same state, but for the log of failures. */
  lemma {:induction false} OutcomesDoNotMatter(g: Graph, c: Ctx, d: Ctx, es: seq<Event>, fs: seq<Event>)
    requires Acyclic(g) && Blank(c) == Blank(d) && Legal(g, c, es) && SameButOutcomes(es, fs)
    ensures Legal(g, d, fs) && Blank(Run(g, c, es)) == Blank(Run(g, d, fs))
    decreases |es|
  {
    if es != [] {
      StepBlank(g, c, d, es[0], fs[0]);
      assert forall i :: 0 <= i < |es[1..]| ==> es[1..][i] == es[i + 1] && fs[1..][i] == fs[i + 1];
      OutcomesDoNotMatter(g, Next(g, c, es[0]), Next(g, d, fs[0]), es[1..], fs[1..]);
    }
  }

  /** The cleanup that fails in this step, if any. */
  function FailsIn(c: Ctx, e: Event): seq<Cleanup> {
    if e.DisposeTurn? && e.fails && c.disposing.Some? && c.disposing.value < |c.cleanups|
    then [c.cleanups[c.disposing.value]] else []
  }

  /** The cleanups of a run that fail, in the order in which they ran. */
  ghost function Failing(g: Graph, c: Ctx, es: seq<Event>): seq<Cleanup>
    requires Acyclic(g) && Legal(g, c, es)
    decreases |es|
  {
    if es == [] then [] else FailsIn(c, es[0]) + Failing(g, Next(g, c, es[0]), es[1..])
  }

  /** And the log has exactly those that failed. */
  lemma {:induction false} LogIsExact(g: Graph, c: Ctx, es: seq<Event>)
    requires Inv(g, c) && Legal(g, c, es)
    ensures Run(g, c, es).failures == c.failures + Failing(g, c, es)
    decreases |es|
  {
    if es != [] {
      var d := Next(g, c, es[0]);
      StepKeeps(g, c, es[0]);
      StepLogs(g, c, es[0]);
      LogIsExact(g, d, es[1..]);
      Associate(c.failures, FailsIn(c, es[0]), Failing(g, d, es[1..]));
    }
  }

  lemma StepLogs(g: Graph, c: Ctx, e: Event)
    requires Inv(g, c) && Enabled(g, c, e)
    ensures Next(g, c, e).failures == c.failures + FailsIn(c, e)
  {
    match e
    case UseCall(p) => UseGood(g, c, p, {});
    case ResumeLoad(p) => ResumeGood(g, c, p);
    case _ =>
  }
}
