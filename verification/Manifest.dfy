/**
 The manifest check of `evals/docs-shots/manifest.ts`: every image of the
 documentation is the output of exactly one scene or is on the allowlist, and
 every output is in use.  Sets are listed in their own order, without repetition.
 */
module Manifest {
  import opened Basics

  datatype Shot = Shot(id: string, out: string)

  datatype Docs = Docs(shots: seq<Shot>, images: seq<string>, allowlist: seq<string>, prefix: string, mdx: string)

  datatype Problem =
    | Outside(id: string, out: string)
    | Duplicate(output: string)
    | Missing(output: string)
    | Unreferenced(output: string)
    | AlsoAllowlisted(output: string)
    | Unclaimed(image: string)
    | Stale(image: string)

  predicate InScope(d: Docs, shot: Shot) { d.prefix <= shot.out }

  function Output(d: Docs, shot: Shot): string {
    if InScope(d, shot) then shot.out[|d.prefix|..] else shot.out
  }

  function Outputs(d: Docs): (r: seq<string>)
    ensures |r| == |d.shots|
  {
    seq(|d.shots|, i requires 0 <= i < |d.shots| => Output(d, d.shots[i]))
  }

  predicate Referenced(d: Docs, output: string) { Includes(d.mdx, "/images/" + output) }

  function When(c: bool, p: Problem): seq<Problem> { if c then [p] else [] }

  function Count(s: seq<string>, x: string): nat {
    if s == [] then 0 else Count(s[..|s| - 1], x) + if s[|s| - 1] == x then 1 else 0
  }

  // -------- the checks, one list of problems per subject --------

  function OfShot(d: Docs, shot: Shot): seq<Problem> { When(!InScope(d, shot), Outside(shot.id, shot.out)) }

  function OfOutput(d: Docs, output: string): seq<Problem> {
    When(Count(Outputs(d), output) > 1, Duplicate(output))
    + When(output !in d.images, Missing(output))
    + When(!Referenced(d, output), Unreferenced(output))
    + When(output in d.allowlist, AlsoAllowlisted(output))
  }

  function OfImage(d: Docs, image: string): seq<Problem> {
    When(image !in Outputs(d) && image !in d.allowlist, Unclaimed(image))
  }

  function OfAllowed(d: Docs, image: string): seq<Problem> { When(image !in d.images, Stale(image)) }

  function ShotProblems(d: Docs): seq<seq<Problem>> {
    seq(|d.shots|, i requires 0 <= i < |d.shots| => OfShot(d, d.shots[i]))
  }

  function OutputProblems(d: Docs): seq<seq<Problem>> {
    seq(|Outputs(d)|, i requires 0 <= i < |Outputs(d)| => OfOutput(d, Outputs(d)[i]))
  }

  function ImageProblems(d: Docs): seq<seq<Problem>> {
    seq(|d.images|, i requires 0 <= i < |d.images| => OfImage(d, d.images[i]))
  }

  function AllowedProblems(d: Docs): seq<seq<Problem>> {
    seq(|d.allowlist|, i requires 0 <= i < |d.allowlist| => OfAllowed(d, d.allowlist[i]))
  }

  function Problems(d: Docs): seq<Problem> {
    Flatten(ShotProblems(d)) + Flatten(OutputProblems(d)) + Flatten(ImageProblems(d)) + Flatten(AllowedProblems(d))
  }

  /** The script: four loops that push what they find. */
  method Check(d: Docs) returns (failures: seq<Problem>)
    ensures failures == Problems(d)
  {
    var shots := CheckShots(d);
    var outputs := CheckOutputs(d);
    var images := CheckImages(d);
    var allowed := CheckAllowlist(d);
    failures := shots + outputs + images + allowed;
  }

  method CheckShots(d: Docs) returns (failures: seq<Problem>)
    ensures failures == Flatten(ShotProblems(d))
  {
    failures := [];
    for i := 0 to |d.shots|
      invariant failures == Flatten(ShotProblems(d)[..i])
    {
      assert ShotProblems(d)[..i + 1][..i] == ShotProblems(d)[..i];
      if !InScope(d, d.shots[i]) { failures := failures + [Outside(d.shots[i].id, d.shots[i].out)]; }
    }
    assert ShotProblems(d)[..|d.shots|] == ShotProblems(d);
  }

  method CheckOutputs(d: Docs) returns (failures: seq<Problem>)
    ensures failures == Flatten(OutputProblems(d))
  {
    failures := [];
    for i := 0 to |Outputs(d)|
      invariant failures == Flatten(OutputProblems(d)[..i])
    {
      assert OutputProblems(d)[..i + 1][..i] == OutputProblems(d)[..i];
      var more := CheckOutput(d, Outputs(d), Outputs(d)[i]);
      failures := failures + more;
    }
    assert OutputProblems(d)[..|Outputs(d)|] == OutputProblems(d);
  }

  method CheckImages(d: Docs) returns (failures: seq<Problem>)
    ensures failures == Flatten(ImageProblems(d))
  {
    failures := [];
    for i := 0 to |d.images|
      invariant failures == Flatten(ImageProblems(d)[..i])
    {
      assert ImageProblems(d)[..i + 1][..i] == ImageProblems(d)[..i];
      if d.images[i] !in Outputs(d) && d.images[i] !in d.allowlist { failures := failures + [Unclaimed(d.images[i])]; }
    }
    assert ImageProblems(d)[..|d.images|] == ImageProblems(d);
  }

  method CheckAllowlist(d: Docs) returns (failures: seq<Problem>)
    ensures failures == Flatten(AllowedProblems(d))
  {
    failures := [];
    for i := 0 to |d.allowlist|
      invariant failures == Flatten(AllowedProblems(d)[..i])
    {
      assert AllowedProblems(d)[..i + 1][..i] == AllowedProblems(d)[..i];
      if d.allowlist[i] !in d.images { failures := failures + [Stale(d.allowlist[i])]; }
    }
    assert AllowedProblems(d)[..|d.allowlist|] == AllowedProblems(d);
  }

  method CheckOutput(d: Docs, outputs: seq<string>, output: string) returns (failures: seq<Problem>)
    requires outputs == Outputs(d)
    ensures failures == OfOutput(d, output)
  {
    failures := [];
    if Count(outputs, output) > 1 { failures := failures + [Duplicate(output)]; }
    if output !in d.images { failures := failures + [Missing(output)]; }
    if !Referenced(d, output) { failures := failures + [Unreferenced(output)]; }
    if output in d.allowlist { failures := failures + [AlsoAllowlisted(output)]; }
  }

  // -------- what a clean report means --------

  ghost function Members(s: seq<string>): set<string> { set x | x in s }

  /** The images are the disjoint union of outputs and allowlist, and all is in order with the outputs. */
  ghost predicate Sound(d: Docs) {
    && (forall i :: 0 <= i < |d.shots| ==> InScope(d, d.shots[i]))
    && (forall i :: 0 <= i < |Outputs(d)| ==> Referenced(d, Outputs(d)[i]))
    && Distinct(Outputs(d))
    && Members(Outputs(d)) !! Members(d.allowlist)
    && Members(d.images) == Members(Outputs(d)) + Members(d.allowlist)
  }

  /** What a scene's output is, as a path below the image directory. */
  ghost predicate IsOutputOf(d: Docs, i: nat, x: string) {
    i < |d.shots| && if d.prefix <= d.shots[i].out then d.shots[i].out == d.prefix + x else d.shots[i].out == x
  }

  ghost predicate IsOutput(d: Docs, x: string) { exists i: nat :: IsOutputOf(d, i, x) }

  /** Some documentation page shows the image. */
  ghost predicate Shown(d: Docs, x: string) { exists i: nat :: OccursAt(d.mdx, "/images/" + x, i) }

  /** When each problem is there. */
  ghost predicate Holds(d: Docs, p: Problem) {
    match p
    case Outside(id, out) => exists i :: 0 <= i < |d.shots| && d.shots[i] == Shot(id, out) && !(d.prefix <= out)
    case Duplicate(x) => exists i: nat, j: nat :: i < j && IsOutputOf(d, i, x) && IsOutputOf(d, j, x)
    case Missing(x) => IsOutput(d, x) && x !in d.images
    case Unreferenced(x) => IsOutput(d, x) && !Shown(d, x)
    case AlsoAllowlisted(x) => IsOutput(d, x) && x in d.allowlist
    case Unclaimed(x) => x in d.images && !IsOutput(d, x) && x !in d.allowlist
    case Stale(x) => x in d.allowlist && x !in d.images
  }

  lemma OutputMeans(d: Docs, i: nat, x: string)
    ensures i < |d.shots| && Outputs(d)[i] == x <==> IsOutputOf(d, i, x)
  {
    if i < |d.shots| && d.prefix <= d.shots[i].out {
      assert d.shots[i].out == d.prefix + d.shots[i].out[|d.prefix|..];
      assert (d.prefix + x)[|d.prefix|..] == x;
    }
  }

  lemma OutputsMean(d: Docs, x: string)
    ensures x in Outputs(d) <==> IsOutput(d, x)
  {
    if x in Outputs(d) {
      var i: nat :| i < |Outputs(d)| && Outputs(d)[i] == x;
      OutputMeans(d, i, x);
    }
    if i: nat :| IsOutputOf(d, i, x) { OutputMeans(d, i, x); }
  }

  lemma {:induction false} CountTwice(s: seq<string>, x: string)
    ensures Count(s, x) > 1 <==> exists i, j :: 0 <= i < j < |s| && s[i] == x && s[j] == x
  {
    if s != [] {
      var t, n := s[..|s| - 1], |s| - 1;
      CountTwice(t, x);
      CountMember(t, x);
      assert s == t + [s[n]];
      if x in t { var i :| 0 <= i < |t| && t[i] == x; assert s[i] == x; }
      if i, j :| 0 <= i < j < |t| && t[i] == x && t[j] == x { assert s[i] == x && s[j] == x; }
      if i, j :| 0 <= i < j < |s| && s[i] == x && s[j] == x {
        assert t[i] == x;
        assert j < n ==> t[j] == x;
      }
    }
  }

  lemma DuplicateMeans(d: Docs, x: string)
    ensures Count(Outputs(d), x) > 1 <==> exists i: nat, j: nat :: i < j && IsOutputOf(d, i, x) && IsOutputOf(d, j, x)
  {
    CountTwice(Outputs(d), x);
    forall i: nat { OutputMeans(d, i, x); }
    if i, j :| 0 <= i < j < |Outputs(d)| && Outputs(d)[i] == x && Outputs(d)[j] == x {
      assert IsOutputOf(d, i, x) && IsOutputOf(d, j, x);
    }
  }

  lemma {:induction false} FlattenHas(parts: seq<seq<Problem>>, p: Problem)
    ensures p in Flatten(parts) <==> exists i :: 0 <= i < |parts| && p in parts[i]
  {
    if parts != [] {
      var n := |parts| - 1;
      FlattenHas(parts[..n], p);
      assert forall i :: 0 <= i < n ==> parts[..n][i] == parts[i];
    }
  }

  /** Every problem is reported if and only if it is there. */
  lemma ReportedIff(d: Docs, p: Problem)
    ensures p in Problems(d) <==> Holds(d, p)
  {
    ShotsReport(d, p);
    OutputsReport(d, p);
    ImagesReport(d, p);
    AllowedReport(d, p);
  }

  /** The subjects come in turn: scenes, outputs, images, allowlist. */
  function Rank(p: Problem): nat {
    match p
    case Outside(_, _) => 0
    case Unclaimed(_) => 2
    case Stale(_) => 3
    case _ => 1
  }

  lemma ShotsReport(d: Docs, p: Problem)
    ensures p in Flatten(ShotProblems(d)) <==> Rank(p) == 0 && Holds(d, p)
  {
    FlattenHas(ShotProblems(d), p);
    if p.Outside? {
      if i :| 0 <= i < |d.shots| && d.shots[i] == Shot(p.id, p.out) && !(d.prefix <= p.out) { assert p in ShotProblems(d)[i]; }
    }
  }

  lemma ImagesReport(d: Docs, p: Problem)
    ensures p in Flatten(ImageProblems(d)) <==> Rank(p) == 2 && Holds(d, p)
  {
    FlattenHas(ImageProblems(d), p);
    if p.Unclaimed? {
      OutputsMean(d, p.image);
      if i :| 0 <= i < |d.images| && d.images[i] == p.image { assert ImageProblems(d)[i] == OfImage(d, p.image); }
    }
  }

  lemma AllowedReport(d: Docs, p: Problem)
    ensures p in Flatten(AllowedProblems(d)) <==> Rank(p) == 3 && Holds(d, p)
  {
    FlattenHas(AllowedProblems(d), p);
    if p.Stale? {
      if i :| 0 <= i < |d.allowlist| && d.allowlist[i] == p.image { assert AllowedProblems(d)[i] == OfAllowed(d, p.image); }
    }
  }

  lemma OutputsReport(d: Docs, p: Problem)
    ensures p in Flatten(OutputProblems(d)) <==> Rank(p) == 1 && Holds(d, p)
  {
    FlattenHas(OutputProblems(d), p);
    if Rank(p) == 1 {
      AboutOneOutput(d, p);
      OneOutput(d, p);
    } else {
      forall i | 0 <= i < |Outputs(d)| ensures p !in OutputProblems(d)[i] { OnlyOfOutputs(d, p, Outputs(d)[i]); }
    }
  }

  lemma OnlyOfOutputs(d: Docs, p: Problem, x: string)
    requires Rank(p) != 1
    ensures p !in OfOutput(d, x)
  {
    if p in OfOutput(d, x) { OfItself(d, p, x); }
  }

  /** A problem of an output is looked for at that output only. */
  lemma AboutOneOutput(d: Docs, p: Problem)
    requires Rank(p) == 1
    ensures (exists i :: 0 <= i < |OutputProblems(d)| && p in OutputProblems(d)[i]) <==>
            p.output in Outputs(d) && p in OfOutput(d, p.output)
  {
    if p.output in Outputs(d) && p in OfOutput(d, p.output) {
      var i :| 0 <= i < |Outputs(d)| && Outputs(d)[i] == p.output;
      assert p in OutputProblems(d)[i];
    }
    if i :| 0 <= i < |OutputProblems(d)| && p in OutputProblems(d)[i] { OfItself(d, p, Outputs(d)[i]); }
  }

  lemma OfItself(d: Docs, p: Problem, x: string)
    requires p in OfOutput(d, x)
    ensures Rank(p) == 1 && p.output == x
  {
  }

  lemma OneOutput(d: Docs, p: Problem)
    requires Rank(p) == 1
    ensures p.output in Outputs(d) && p in OfOutput(d, p.output) <==> Holds(d, p)
  {
    var x := p.output;
    OutputsMean(d, x);
    match p
    case Duplicate(_) =>
      DuplicateMeans(d, x);
      CountMember(Outputs(d), x);
    case Unreferenced(_) => IncludesIff(d.mdx, "/images/" + x);
    case _ =>
  }

  lemma ReportedInTurn(d: Docs)
    ensures forall i, j :: 0 <= i < j < |Problems(d)| ==> Rank(Problems(d)[i]) <= Rank(Problems(d)[j])
  {
    forall p
      ensures p in Flatten(ShotProblems(d)) ==> Rank(p) == 0
      ensures p in Flatten(OutputProblems(d)) ==> Rank(p) == 1
      ensures p in Flatten(ImageProblems(d)) ==> Rank(p) == 2
      ensures p in Flatten(AllowedProblems(d)) ==> Rank(p) == 3
    {
      ShotsReport(d, p);
      OutputsReport(d, p);
      ImagesReport(d, p);
      AllowedReport(d, p);
    }
    InTurn(Flatten(ShotProblems(d)), Flatten(OutputProblems(d)), Flatten(ImageProblems(d)), Flatten(AllowedProblems(d)));
  }

  lemma InTurn(a: seq<Problem>, b: seq<Problem>, c: seq<Problem>, e: seq<Problem>)
    requires forall p :: (p in a ==> Rank(p) == 0) && (p in b ==> Rank(p) == 1) && (p in c ==> Rank(p) == 2) && (p in e ==> Rank(p) == 3)
    ensures var all := a + b + c + e; forall i, j :: 0 <= i < j < |all| ==> Rank(all[i]) <= Rank(all[j])
  {
    var all := a + b + c + e;
    forall i | 0 <= i < |all|
      ensures Rank(all[i]) == if i < |a| then 0 else if i < |a| + |b| then 1 else if i < |a| + |b| + |c| then 2 else 3
    {
      assert if i < |a| then all[i] in a else if i < |a| + |b| then all[i] in b else if i < |a| + |b| + |c| then all[i] in c else all[i] in e;
    }
  }

  lemma {:induction false} FlattenEmpty(parts: seq<seq<Problem>>)
    ensures Flatten(parts) == [] <==> forall i :: 0 <= i < |parts| ==> parts[i] == []
  {
    if parts != [] {
      var n := |parts| - 1;
      FlattenEmpty(parts[..n]);
      assert (forall i :: 0 <= i < n ==> parts[..n][i] == []) <==> forall i :: 0 <= i < n ==> parts[i] == [];
    }
  }

  lemma {:induction false} CountMember(s: seq<string>, x: string)
    ensures Count(s, x) > 0 <==> x in s
  {
    if s != [] {
      CountMember(s[..|s| - 1], x);
      assert s == s[..|s| - 1] + [s[|s| - 1]];
    }
  }

  lemma {:induction false} CountDistinct(s: seq<string>)
    ensures Distinct(s) <==> forall x :: x in s ==> Count(s, x) <= 1
  {
    if s != [] {
      var t, last := s[..|s| - 1], s[|s| - 1];
      assert s == t + [last];
      CountDistinct(t);
      CountMember(t, last);
      if Distinct(s) {
        assert last !in t;
      } else if Distinct(t) {
        assert last in t;
        assert Count(s, last) == Count(t, last) + 1;
      } else {
        var x :| x in t && Count(t, x) > 1;
        assert x in s && Count(s, x) >= Count(t, x);
      }
    }
  }

  /** The report is empty exactly when the documentation is sound. */
  lemma CleanIffSound(d: Docs)
    ensures Problems(d) == [] <==> Sound(d)
  {
    FlattenEmpty(ShotProblems(d));
    FlattenEmpty(OutputProblems(d));
    FlattenEmpty(ImageProblems(d));
    FlattenEmpty(AllowedProblems(d));
    CountDistinct(Outputs(d));
    if Problems(d) == [] { CleanIsSound(d); }
    if Sound(d) { SoundIsClean(d); }
  }

  lemma CleanIsSound(d: Docs)
    requires forall i :: 0 <= i < |d.shots| ==> ShotProblems(d)[i] == []
    requires forall i :: 0 <= i < |Outputs(d)| ==> OutputProblems(d)[i] == []
    requires forall i :: 0 <= i < |d.images| ==> ImageProblems(d)[i] == []
    requires forall i :: 0 <= i < |d.allowlist| ==> AllowedProblems(d)[i] == []
    requires Distinct(Outputs(d)) <==> forall x :: x in Outputs(d) ==> Count(Outputs(d), x) <= 1
    ensures Sound(d)
  {
    forall i | 0 <= i < |d.shots| ensures InScope(d, d.shots[i]) { assert ShotProblems(d)[i] == []; }
    forall i | 0 <= i < |Outputs(d)|
      ensures Referenced(d, Outputs(d)[i]) && Outputs(d)[i] in d.images && Outputs(d)[i] !in d.allowlist
              && Count(Outputs(d), Outputs(d)[i]) <= 1
    {
      assert OutputProblems(d)[i] == [] == OfOutput(d, Outputs(d)[i]);
    }
    forall i | 0 <= i < |d.images| ensures d.images[i] in Outputs(d) || d.images[i] in d.allowlist {
      assert ImageProblems(d)[i] == [];
    }
    forall i | 0 <= i < |d.allowlist| ensures d.allowlist[i] in d.images { assert AllowedProblems(d)[i] == []; }
  }

  lemma SoundIsClean(d: Docs)
    requires Sound(d)
    requires Distinct(Outputs(d)) <==> forall x :: x in Outputs(d) ==> Count(Outputs(d), x) <= 1
    ensures forall i :: 0 <= i < |d.shots| ==> ShotProblems(d)[i] == []
    ensures forall i :: 0 <= i < |Outputs(d)| ==> OutputProblems(d)[i] == []
    ensures forall i :: 0 <= i < |d.images| ==> ImageProblems(d)[i] == []
    ensures forall i :: 0 <= i < |d.allowlist| ==> AllowedProblems(d)[i] == []
  {
    forall i | 0 <= i < |Outputs(d)| ensures OutputProblems(d)[i] == [] {
      var x := Outputs(d)[i];
      assert x in Members(Outputs(d)) && x in Members(d.images) && x !in Members(d.allowlist);
    }
    forall i | 0 <= i < |d.images| ensures ImageProblems(d)[i] == [] { assert d.images[i] in Members(d.images); }
    forall i | 0 <= i < |d.allowlist| ensures AllowedProblems(d)[i] == [] {
      assert d.allowlist[i] in Members(d.allowlist) && d.allowlist[i] in Members(d.images);
    }
  }

  lemma {:induction false} DistinctSize(s: seq<string>)
    requires Distinct(s)
    ensures |Members(s)| == |s|
  {
    if s != [] {
      var t, last := s[..|s| - 1], s[|s| - 1];
      DistinctSize(t);
      assert s == t + [last];
      assert Members(s) == Members(t) + {last} && last !in Members(t);
    }
  }

  /** So a clean report gives the numbers the script prints: as many images as scenes and allowlisted ones together. */
  lemma CleanCounts(d: Docs)
    requires Distinct(d.images) && Distinct(d.allowlist) && Problems(d) == []
    ensures |d.images| == |d.shots| + |d.allowlist|
  {
    CleanIffSound(d);
    DistinctSize(d.images);
    DistinctSize(d.allowlist);
    DistinctSize(Outputs(d));
  }
}
