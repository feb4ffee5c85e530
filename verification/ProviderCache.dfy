/** The context as an object whose list of cleanups and cache are updated in place. */
module ProviderCache {
  import opened Basics
  import P = ProviderContext

  class Context {
    var values: map<nat, P.Load>
    var cleanups: seq<P.Cleanup>
    var disposing: Option<nat>
    ghost var started: seq<nat>
    ghost var registered: seq<P.Cleanup>
    var ran: seq<P.Cleanup>
    var failures: seq<P.Cleanup>

    constructor ()
      ensures View() == P.EMPTY
    {
      values, cleanups, disposing, ran, failures := map[], [], None, [], [];
      started, registered := [], [];
    }

    ghost function View(): P.Ctx
      reads this
    {
      P.Ctx(values, cleanups, disposing, started, registered, ran, failures)
    }

    method OnDispose(cleanup: P.Cleanup)
      modifies this
      ensures View() == P.OnDispose(old(View()), cleanup)
    {
      cleanups := cleanups + [cleanup];
      registered := registered + [cleanup];
    }

    /** `use`: hand out what is remembered, or load now and remember afterwards. */
    method Use(g: P.Graph, p: nat)
      requires P.Acyclic(g) && p < |g|
      modifies this
      ensures View() == P.Use(g, old(View()), p)
      decreases p, |g[p]| + 1
    {
      if p in values { return; }
      started := started + [p];
      var load := Run(g, p, 0);
      values := values[p := load];
    }

    /** The load's own code up to its next `await`. */
    method Run(g: P.Graph, p: nat, from: nat) returns (load: P.Load)
      requires P.Acyclic(g) && p < |g| && from <= |g[p]|
      modifies this
      ensures (View(), load) == P.Advance(g, old(View()), p, from)
      decreases p, |g[p]| - from, 1
    {
      var k := from;
      while k < |g[p]|
        invariant from <= k <= |g[p]|
        invariant P.Advance(g, old(View()), p, from) == P.Advance(g, View(), p, k)
      {
        match g[p][k] {
        case Register => OnDispose(P.Of(p, k));
        case Start(dep) =>
          assert P.Uses(g[p][k]);
          Use(g, dep);
        case Await(dep) =>
          assert P.Uses(g[p][k]);
          Use(g, dep);
          return P.Load(k, P.Waiting);
        case Throw => return P.Load(k, P.Rejected);
        }
        k := k + 1;
      }
      load := P.Load(k, P.Resolved);
    }

    method Resume(g: P.Graph, p: nat)
      requires P.Acyclic(g) && P.CanResume(g, View(), p)
      modifies this
      ensures View() == P.Resume(g, old(View()), p)
    {
      var k := values[p].pc;
      if values[g[p][k].dep].status == P.Rejected {
        values := values[p := P.Load(k, P.Rejected)];
      } else {
        var load := Run(g, p, k + 1);
        values := values[p := load];
      }
    }

    /** `dispose` up to its first `await`: the list is reversed in place. */
    method DisposeStart()
      modifies this
      ensures View() == P.DisposeStart(old(View()))
    {
      cleanups := P.Reverse(cleanups);
      disposing := Some(0);
    }

    /** One round of the walk over the live list; the error of a cleanup that fails is
        caught and logged. */
    method DisposeNext(fails: bool)
      requires disposing.Some?
      modifies this
      ensures View() == P.DisposeNext(old(View()), fails)
    {
      var i := disposing.value;
      if i < |cleanups| {
        ran := ran + [cleanups[i]];
        if fails { failures := failures + [cleanups[i]]; }
        disposing := Some(i + 1);
      } else {
        cleanups := [];
        disposing := None;
      }
    }
  }
}
