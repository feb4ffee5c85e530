/**
 The process-tree sampler `scripts/capture-efficiency-bench/measure_tree.py`:
 the worklist walk over one reading of the process table, and the running
 maxima over the samples.
 */
module ProcessTree {
  import opened Basics

  /** One readable row of the process table. */
  datatype Process = Process(pid: int, parent: int)

  type Table = seq<Process>

  /** A reading lists each process once. */
  ghost predicate OncePerPid(t: Table) {
    forall i, j :: 0 <= i < j < |t| ==> t[i].pid != t[j].pid
  }

  function ChildrenOf(t: Table, parent: int): (r: seq<int>)
    ensures forall c :: c in r <==> exists i :: 0 <= i < |t| && t[i] == Process(c, parent)
  {
    if t == [] then []
    else
      var last := t[|t| - 1];
      var rest := ChildrenOf(t[..|t| - 1], parent);
      if last.parent == parent then rest + [last.pid] else rest
  }

  lemma {:induction false} ChildrenDistinct(t: Table, parent: int)
    requires OncePerPid(t)
    ensures Distinct(ChildrenOf(t, parent))
  {
    if t != [] { ChildrenDistinct(t[..|t| - 1], parent); }
  }

  /** Children are listed in the order of the table. */
  lemma {:induction false} ChildrenInOrder(t: Table, parent: int) returns (at: seq<nat>)
    ensures var children := ChildrenOf(t, parent);
            && |at| == |children|
            && (forall k :: 0 <= k < |at| ==> at[k] < |t| && t[at[k]] == Process(children[k], parent))
            && forall k, l :: 0 <= k < l < |at| ==> at[k] < at[l]
  {
    if t == [] {
      at := [];
    } else {
      var n := |t| - 1;
      at := ChildrenInOrder(t[..n], parent);
      if t[n].parent == parent { at := at + [n]; }
    }
  }

  // -------- ancestry --------

  function ParentOf(t: Table, pid: int): (r: Option<int>)
    ensures r.Some? ==> exists i :: 0 <= i < |t| && t[i] == Process(pid, r.value)
    ensures r.None? ==> forall i :: 0 <= i < |t| ==> t[i].pid != pid
  {
    if t == [] then None
    else if t[|t| - 1].pid == pid then Some(t[|t| - 1].parent)
    else ParentOf(t[..|t| - 1], pid)
  }

  /** The ancestor `k` generations up. */
  ghost function Up(t: Table, pid: int, k: nat): Option<int>
    decreases k
  {
    if k == 0 then Some(pid)
    else match ParentOf(t, pid)
      case None => None
      case Some(parent) => Up(t, parent, k - 1)
  }

  ghost predicate Descends(t: Table, pid: int, root: int) {
    exists k: nat :: Up(t, pid, k) == Some(root)
  }

  /** The root is among its own descendants. */
  ghost predicate Loops(t: Table, root: int) {
    exists k: nat :: k > 0 && Up(t, root, k) == Some(root)
  }

  lemma ChildIff(t: Table, child: int, parent: int)
    requires OncePerPid(t)
    ensures child in ChildrenOf(t, parent) <==> ParentOf(t, child) == Some(parent)
  {
  }

  lemma {:induction false} UpLast(t: Table, pid: int, k: nat)
    requires k > 0
    ensures Up(t, pid, k) == (match Up(t, pid, k - 1) case None => None case Some(q) => ParentOf(t, q))
    decreases k
  {
    if k > 1 {
      match ParentOf(t, pid)
      case None =>
      case Some(parent) => UpLast(t, parent, k - 1);
    }
  }

  // -------- the walk --------

  datatype Walk = Walk(result: seq<int>, pending: seq<int>)

  function Step(t: Table, w: Walk): Walk
    requires w.pending != []
  {
    var pid := w.pending[|w.pending| - 1];
    Walk(w.result + [pid], w.pending[..|w.pending| - 1] + ChildrenOf(t, pid))
  }

  ghost predicate Seen(w: Walk, pid: int) { pid in w.result || pid in w.pending }

  ghost predicate WalkOk(t: Table, root: int, w: Walk) {
    && Distinct(w.result + w.pending)
    && Seen(w, root)
    && (forall x :: Seen(w, x) ==> Descends(t, x, root))
    && (forall x :: Seen(w, x) && x != root ==> ParentOf(t, x).Some? && ParentOf(t, x).value in w.result)
    && (forall x, c :: x in w.result && c in ChildrenOf(t, x) ==> Seen(w, c))
  }

  lemma DescendsChild(t: Table, c: int, pid: int, root: int)
    requires ParentOf(t, c) == Some(pid) && Descends(t, pid, root)
    ensures Descends(t, c, root) && (c == root ==> Loops(t, root))
  {
    var k: nat :| Up(t, pid, k) == Some(root);
    assert Up(t, c, k + 1) == Some(root);
  }

  lemma StepOk(t: Table, root: int, w: Walk)
    requires OncePerPid(t) && !Loops(t, root) && WalkOk(t, root, w) && w.pending != []
    ensures WalkOk(t, root, Step(t, w))
    ensures w.pending[|w.pending| - 1] !in w.result
  {
    var n := |w.pending| - 1;
    var pid := w.pending[n];
    var kids := ChildrenOf(t, pid);
    NotBoth(w.result, w.pending, n);
    assert w.pending == w.pending[..n] + [pid];
    forall c | c in kids ensures !Seen(w, c) && Descends(t, c, root) && ParentOf(t, c) == Some(pid) {
      ChildIff(t, c, pid);
      DescendsChild(t, c, pid, root);
    }
    ChildrenDistinct(t, pid);
    var v := Step(t, w);
    StepDistinct(w.result, w.pending[..n], pid, kids);
    forall x ensures Seen(v, x) <==> Seen(w, x) || x in kids {}
  }

  lemma NotBoth(a: seq<int>, b: seq<int>, n: nat)
    requires Distinct(a + b) && n < |b|
    ensures b[n] !in a
  {
    assert (a + b)[|a| + n] == b[n];
    assert forall i :: 0 <= i < |a| ==> (a + b)[i] == a[i];
  }

  lemma StepDistinct(result: seq<int>, rest: seq<int>, pid: int, kids: seq<int>)
    requires Distinct(result + (rest + [pid])) && Distinct(kids)
    requires forall c :: c in kids ==> c !in result && c !in rest && c != pid
    ensures Distinct((result + [pid]) + (rest + kids))
  {
    var a, b := result + (rest + [pid]), (result + [pid]) + (rest + kids);
    var n, m := |result|, |rest|;
    assert a[n + m] == pid;
    forall i, j | 0 <= i < j < |b| ensures b[i] != b[j] {
      if j > n + m {
        assert b[j] in kids;
        if i > n + m { assert b[i] == kids[i - n - m - 1] && b[j] == kids[j - n - m - 1]; }
        else { assert b[i] in result || b[i] == pid || b[i] in rest; }
      } else {
        var i' := if i < n then i else if i == n then n + m else i - 1;
        var j' := if j < n then j else if j == n then n + m else j - 1;
        assert b[i] == a[i'] && b[j] == a[j'] && i' != j';
      }
    }
  }

  /** A finished walk has found every descendant. */
  lemma {:induction false} FoundAll(t: Table, root: int, w: Walk, x: int, k: nat)
    requires OncePerPid(t) && WalkOk(t, root, w) && w.pending == [] && Up(t, x, k) == Some(root)
    ensures x in w.result
    decreases k
  {
    if k > 0 {
      var q := ParentOf(t, x).value;
      FoundAll(t, root, w, q, k - 1);
      ChildIff(t, x, q);
      assert Seen(w, x);
    }
  }

  ghost function Pids(t: Table): set<int> { set i | 0 <= i < |t| :: t[i].pid }

  /** `children` as the dictionary built by one pass over the table. */
  method BuildChildren(t: Table) returns (children: map<int, seq<int>>)
    ensures forall p :: (p in children <==> ChildrenOf(t, p) != []) && (p in children ==> children[p] == ChildrenOf(t, p))
  {
    children := map[];
    var i := 0;
    assert t[..0] == [];
    while i < |t|
      invariant i <= |t|
      invariant forall p :: (p in children <==> ChildrenOf(t[..i], p) != []) && (p in children ==> children[p] == ChildrenOf(t[..i], p))
    {
      assert t[..i + 1][..i] == t[..i];
      var row := t[i];
      var before := if row.parent in children then children[row.parent] else [];
      children := children[row.parent := before + [row.pid]];
      i := i + 1;
    }
    assert t[..i] == t;
  }

  /** `tree(root)`: exactly the root and its descendants, each once. */
  method Tree(t: Table, root: int) returns (result: seq<int>)
    requires OncePerPid(t) && !Loops(t, root)
    ensures Distinct(result)
    ensures forall x :: x in result <==> Descends(t, x, root)
  {
    var children := BuildChildren(t);
    result := [];
    var pending := [root];
    assert Up(t, root, 0) == Some(root);
    ghost var left := Pids(t) + {root};
    while pending != []
      invariant WalkOk(t, root, Walk(result, pending))
      invariant forall x :: x in left <==> (x in Pids(t) || x == root) && x !in result
      decreases left
    {
      ghost var w := Walk(result, pending);
      StepOk(t, root, w);
      var pid := pending[|pending| - 1];
      assert Seen(w, pid) && (pid != root ==> pid in Pids(t));
      assert pid in left;
      left := left - {pid};
      pending := pending[..|pending| - 1];
      result := result + [pid];
      pending := pending + if pid in children then children[pid] else [];
      assert Walk(result, pending) == Step(t, w);
    }
    assert result + pending == result;
    forall x | Descends(t, x, root) ensures x in result {
      var k: nat :| Up(t, x, k) == Some(root);
      FoundAll(t, root, Walk(result, pending), x, k);
    }
  }

  /** The walk after at most `n` rounds. */
  ghost function After(t: Table, w: Walk, n: nat): Walk
    decreases n
  {
    if n == 0 || w.pending == [] then w else After(t, Step(t, w), n - 1)
  }

  /** The condition is exact: with the root among its own descendants the walk never runs dry. */
  lemma LoopNeverEnds(t: Table, root: int, n: nat)
    requires OncePerPid(t) && Loops(t, root)
    ensures After(t, Walk([], [root]), n).pending != []
  {
    var k: nat :| k > 0 && Up(t, root, k) == Some(root);
    OnLoopNeverEnds(t, root, k, Walk([], [root]), n, root, k);
  }

  /** When `x` is taken out, its child on the loop is put in. */
  lemma ChildPutIn(t: Table, root: int, w: Walk, x: int, i: nat) returns (c: int)
    requires OncePerPid(t) && x in w.pending && x !in Step(t, w).pending && 0 < i && Up(t, root, i) == Some(x)
    ensures Up(t, root, i - 1) == Some(c) && c in Step(t, w).pending
  {
    assert w.pending == w.pending[..|w.pending| - 1] + [w.pending[|w.pending| - 1]];
    UpLast(t, root, i);
    c := Up(t, root, i - 1).value;
    ChildIff(t, c, x);
  }

  lemma {:induction false} OnLoopNeverEnds(t: Table, root: int, k: nat, w: Walk, n: nat, x: int, i: nat)
    requires OncePerPid(t) && k > 0 && Up(t, root, k) == Some(root)
    requires x in w.pending && 0 < i <= k && Up(t, root, i) == Some(x)
    ensures After(t, w, n).pending != []
    decreases n
  {
    if n > 0 {
      var v := Step(t, w);
      if x in v.pending {
        OnLoopNeverEnds(t, root, k, v, n - 1, x, i);
      } else {
        var c := ChildPutIn(t, root, w, x, i);
        if i == 1 { OnLoopNeverEnds(t, root, k, v, n - 1, root, k); } else { OnLoopNeverEnds(t, root, k, v, n - 1, c, i - 1); }
      }
    }
  }

  // -------- the samples --------

  datatype Sample = Sample(total: nat, pids: seq<int>)

  /** `i` is the first sample with the largest total, and that total is not zero. */
  ghost predicate FirstPeak(samples: seq<Sample>, i: int) {
    && 0 <= i < |samples| && samples[i].total > 0
    && (forall j :: 0 <= j < |samples| ==> samples[j].total <= samples[i].total)
    && (forall j :: 0 <= j < i ==> samples[j].total < samples[i].total)
  }

  method Measure(samples: seq<Sample>) returns (peak: nat, lastTree: seq<int>, peakCount: nat, count: nat)
    ensures count == |samples|
    ensures if exists i :: FirstPeak(samples, i)
            then exists i :: FirstPeak(samples, i) && peak == samples[i].total && lastTree == samples[i].pids
            else peak == 0 && lastTree == [] && forall j :: 0 <= j < |samples| ==> samples[j].total == 0
    ensures forall j :: 0 <= j < |samples| ==> |samples[j].pids| <= peakCount
    ensures samples != [] ==> exists j :: 0 <= j < |samples| && |samples[j].pids| == peakCount
  {
    peak, lastTree, peakCount, count := 0, [], 0, 0;
    ghost var at := -1;
    while count < |samples|
      invariant count <= |samples|
      invariant if at == -1 then peak == 0 && lastTree == [] && forall j :: 0 <= j < count ==> samples[j].total == 0
                else FirstPeak(samples[..count], at) && peak == samples[at].total && lastTree == samples[at].pids
      invariant forall j :: 0 <= j < count ==> |samples[j].pids| <= peakCount
      invariant if count == 0 then peakCount == 0 else exists j :: 0 <= j < count && |samples[j].pids| == peakCount
    {
      var sample := samples[count];
      if sample.total > peak {
        peak, lastTree := sample.total, sample.pids;
        at := count;
      }
      if |sample.pids| > peakCount { peakCount := |sample.pids|; }
      count := count + 1;
    }
    assert samples[..count] == samples;
  }
}
