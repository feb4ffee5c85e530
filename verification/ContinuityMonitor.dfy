/**
 The online monitor of `evals/worlds/chat-continuity.ts` (`observeSurface`):
 nothing counts before the destination is first selected; from then on every
 sample may report violations, and each is kept once.
 */
module ContinuityMonitor {
  import opened Basics

  datatype Expectation = Expectation(forbidden: seq<string>, required: seq<string>)

  /** What one sample sees of the page. */
  datatype Sample = Sample(selected: bool, now: int, starters: bool, loader: bool, text: string)

  const STARTERS := "starters in pending or historical conversation"
  const EARLY_LOADER := "loader appeared before its own delay"
  const SHORT := 1500
  const LONG := 2200

  /** The texts of `texts` that are (`found`) or are not (`!found`) in `s`, with a label in front. */
  function Labelled(heading: string, texts: seq<string>, s: string, found: bool): seq<string> {
    if texts == [] then []
    else (if Includes(s, texts[0]) == found then [heading + texts[0]] else []) + Labelled(heading, texts[1..], s, found)
  }

  /** The violations of one sample, in the order in which they are looked at. */
  function Violations(e: Expectation, x: Sample, elapsed: int): seq<string> {
    (if x.starters then [STARTERS] else [])
    + (if x.loader && elapsed < SHORT then [EARLY_LOADER] else [])
    + Labelled("foreign message: ", e.forbidden, x.text, true)
    + Labelled("cached message missing: ", e.required, x.text, false)
  }

  lemma {:induction false} LabelledIff(heading: string, texts: seq<string>, s: string, found: bool, v: string)
    ensures v in Labelled(heading, texts, s, found) <==>
            exists i :: 0 <= i < |texts| && v == heading + texts[i] && Includes(s, texts[i]) == found
  {
    if texts != [] {
      var rest := texts[1..];
      LabelledIff(heading, rest, s, found, v);
      assert forall i :: 0 <= i < |rest| ==> rest[i] == texts[i + 1];
      if i :| 0 <= i < |texts| && v == heading + texts[i] && Includes(s, texts[i]) == found {
        assert i > 0 ==> rest[i - 1] == texts[i];
      }
    }
  }

  /** A sample is in violation for starters, for a loader before the short delay, for
      each forbidden text it shows and for each required text it lacks; nothing else. */
  lemma ViolationsIff(e: Expectation, x: Sample, elapsed: int, v: string)
    ensures v in Violations(e, x, elapsed) <==>
            || (v == "starters in pending or historical conversation" && x.starters)
            || (v == "loader appeared before its own delay" && x.loader && elapsed < 1500)
            || (exists i :: 0 <= i < |e.forbidden| && v == "foreign message: " + e.forbidden[i] && Includes(x.text, e.forbidden[i]))
            || (exists i :: 0 <= i < |e.required| && v == "cached message missing: " + e.required[i] && !Includes(x.text, e.required[i]))
  {
    LabelledIff("foreign message: ", e.forbidden, x.text, true, v);
    LabelledIff("cached message missing: ", e.required, x.text, false, v);
  }

  // -------- the specification over the whole sequence of samples --------

  /** Index of the first sample that sees the destination selected, or their number. */
  function Selection(samples: seq<Sample>): (i: nat)
    ensures i <= |samples|
    ensures i < |samples| ==> samples[i].selected
    ensures forall j :: 0 <= j < i ==> !samples[j].selected
  {
    if samples == [] || samples[0].selected then 0 else 1 + Selection(samples[1..])
  }

  /** The violations of each of `samples`, which begin at the selection. */
  function PerSample(e: Expectation, samples: seq<Sample>, selectedAt: int): seq<seq<string>> {
    seq(|samples|, i requires 0 <= i < |samples| => Violations(e, samples[i], samples[i].now - selectedAt))
  }

  lemma {:induction false} FlattenHas(parts: seq<seq<string>>, v: string)
    ensures v in Flatten(parts) <==> exists i :: 0 <= i < |parts| && v in parts[i]
  {
    if parts != [] {
      var n := |parts| - 1;
      FlattenHas(parts[..n], v);
      assert forall i :: 0 <= i < n ==> parts[..n][i] == parts[i];
    }
  }

  /** Keep the first of equal members. */
  function Dedup(s: seq<string>): (r: seq<string>)
    ensures forall x :: x in r <==> x in s
  {
    if s == [] then []
    else
      var rest := Dedup(s[..|s| - 1]);
      var last := s[|s| - 1];
      assert s == s[..|s| - 1] + [last];
      if last in rest then rest else rest + [last]
  }

  /** Position of the first occurrence. */
  function FirstAt(s: seq<string>, x: string): (i: nat)
    requires x in s
    ensures i < |s| && s[i] == x && x !in s[..i]
  {
    if s[0] == x then 0 else 1 + FirstAt(s[1..], x)
  }

  /** What `Dedup` means: no repetition, and members in the order of their first occurrence. */
  lemma {:induction false} DedupMeans(s: seq<string>)
    ensures Distinct(Dedup(s))
    ensures forall i, j :: 0 <= i < j < |Dedup(s)| ==> FirstAt(s, Dedup(s)[i]) < FirstAt(s, Dedup(s)[j])
  {
    if s != [] {
      var t, last := s[..|s| - 1], s[|s| - 1];
      DedupMeans(t);
      assert s == t + [last];
      forall x | x in t ensures FirstAt(s, x) == FirstAt(t, x) {
        SameFirst(t, last, x);
      }
      if last !in t {
        assert FirstAt(s, last) == |t| by { assert last !in s[..|t|]; }
      }
      forall i, j | 0 <= i < j < |Dedup(s)| ensures FirstAt(s, Dedup(s)[i]) < FirstAt(s, Dedup(s)[j]) {
        assert i < |Dedup(t)| && Dedup(s)[i] == Dedup(t)[i] && Dedup(t)[i] in t;
      }
    }
  }

  lemma SameFirst(t: seq<string>, last: string, x: string)
    requires x in t
    ensures x in t + [last] && FirstAt(t + [last], x) == FirstAt(t, x)
  {
    assert (t + [last])[FirstAt(t, x)] == x;
    FirstUnique(t + [last], x, FirstAt(t, x));
  }

  lemma FirstUnique(s: seq<string>, x: string, i: nat)
    requires i < |s| && s[i] == x && x !in s[..i]
    ensures FirstAt(s, x) == i
  {
  }

  // -------- the monitor --------

  datatype State = State(selectedAt: Option<int>, elapsedMs: int, shortSamples: nat, longSamples: nat,
                         loaderSeen: bool, violations: seq<string>)

  const START := State(None, 0, 0, 0, false, [])

  /** Push what is not there yet, one after the other. */
  function AddNew(violations: seq<string>, found: seq<string>): seq<string>
    decreases |found|
  {
    if found == [] then violations
    else AddNew(if found[0] in violations then violations else violations + [found[0]], found[1..])
  }

  /** One call of `sample`. */
  function Turn(e: Expectation, st: State, x: Sample): State {
    if st.selectedAt.None? && !x.selected then st
    else
      var start := if st.selectedAt.Some? then st.selectedAt.value else x.now;
      var elapsed := x.now - start;
      State(Some(start), elapsed,
            st.shortSamples + (if elapsed < SHORT then 1 else 0), st.longSamples + (if elapsed > LONG then 1 else 0),
            st.loaderSeen || x.loader, AddNew(st.violations, Violations(e, x, elapsed)))
  }

  function Observe(e: Expectation, samples: seq<Sample>): State {
    if samples == [] then START
    else Turn(e, Observe(e, samples[..|samples| - 1]), samples[|samples| - 1])
  }

  lemma {:induction false} AddNewIsDedup(all: seq<string>, found: seq<string>)
    ensures AddNew(Dedup(all), found) == Dedup(all + found)
    decreases |found|
  {
    if found == [] {
      assert all + found == all;
    } else {
      var more := all + [found[0]];
      assert more[..|more| - 1] == all;
      assert all + found == more + found[1..];
      AddNewIsDedup(more, found[1..]);
    }
  }

  lemma {:induction false} SelectionStep(seen: seq<Sample>, x: Sample)
    ensures var i, j := Selection(seen), Selection(seen + [x]);
            if i < |seen| || x.selected then j == i else j == |seen| + 1
  {
    if seen == [] {
    } else if !seen[0].selected {
      assert (seen + [x])[1..] == seen[1..] + [x];
      SelectionStep(seen[1..], x);
    }
  }

  function HowMany(samples: seq<Sample>, p: Sample -> bool): nat {
    if samples == [] then 0
    else HowMany(samples[..|samples| - 1], p) + if p(samples[|samples| - 1]) then 1 else 0
  }

  predicate IsShort(x: Sample, start: int) { x.now - start < 1500 }

  predicate IsLong(x: Sample, start: int) { x.now - start > 2200 }

  /** The samples taken early, and late, after `start`, in milliseconds. */
  ghost predicate Counted(st: State, counted: seq<Sample>, start: int) {
    && st.shortSamples == HowMany(counted, (x: Sample) => IsShort(x, start))
    && st.longSamples == HowMany(counted, (x: Sample) => IsLong(x, start))
  }

  /** What the monitor holds, given the samples from the selection on. */
  ghost predicate Matches(e: Expectation, st: State, counted: seq<Sample>) {
    if counted == [] then st == State(None, 0, 0, 0, false, [])
    else
      var start := counted[0].now;
      && st.selectedAt == Some(start)
      && st.elapsedMs == counted[|counted| - 1].now - start
      && Counted(st, counted, start)
      && (st.loaderSeen <==> exists i :: 0 <= i < |counted| && counted[i].loader)
      && st.violations == Dedup(Flatten(PerSample(e, counted, start)))
  }

  lemma CountStep(e: Expectation, st: State, counted: seq<Sample>, x: Sample)
    requires Matches(e, st, counted) && (counted == [] ==> x.selected)
    ensures Matches(e, Turn(e, st, x), counted + [x])
  {
    var all := counted + [x];
    var start := all[0].now;
    assert all[|counted|] == x;
    OneMore(counted, x, (y: Sample) => IsShort(y, start));
    OneMore(counted, x, (y: Sample) => IsLong(y, start));
    ViolationsStep(e, st, counted, x, start);
    assert forall i :: 0 <= i < |counted| ==> all[i] == counted[i];
  }

  lemma OneMore(counted: seq<Sample>, x: Sample, p: Sample -> bool)
    ensures HowMany(counted + [x], p) == HowMany(counted, p) + if p(x) then 1 else 0
  {
    assert (counted + [x])[..|counted|] == counted;
  }

  lemma ViolationsStep(e: Expectation, st: State, counted: seq<Sample>, x: Sample, start: int)
    requires st.violations == Dedup(Flatten(PerSample(e, counted, start))) || (counted == [] && st.violations == [])
    ensures AddNew(st.violations, Violations(e, x, x.now - start)) == Dedup(Flatten(PerSample(e, counted + [x], start)))
  {
    FlattenStep(e, counted, x, start);
    assert counted == [] ==> Dedup(Flatten(PerSample(e, counted, start))) == [];
    AddNewIsDedup(Flatten(PerSample(e, counted, start)), Violations(e, x, x.now - start));
  }

  lemma FlattenStep(e: Expectation, counted: seq<Sample>, x: Sample, start: int)
    ensures Flatten(PerSample(e, counted + [x], start)) == Flatten(PerSample(e, counted, start)) + Violations(e, x, x.now - start)
  {
    var parts := PerSample(e, counted + [x], start);
    assert parts[..|counted|] == PerSample(e, counted, start);
  }

  /** After any samples, the monitor holds exactly what the samples from the first
      selection on determine: the violations of all of them, each once and first seen
      first, and whether any of them showed the loader.  Earlier samples leave no trace. */
  lemma {:induction false} MonitorExact(e: Expectation, samples: seq<Sample>)
    ensures Matches(e, Observe(e, samples), samples[Selection(samples)..])
  {
    if samples != [] {
      var seen, x := samples[..|samples| - 1], samples[|samples| - 1];
      assert samples == seen + [x];
      MonitorExact(e, seen);
      CountedOn(seen, x);
      if Selection(seen) < |seen| || x.selected {
        CountStep(e, Observe(e, seen), seen[Selection(seen)..], x);
      }
    }
  }

  /** A sample counts once the destination has been selected. */
  lemma CountedOn(seen: seq<Sample>, x: Sample)
    ensures var counted := (seen + [x])[Selection(seen + [x])..];
            if Selection(seen) < |seen| || x.selected then counted == seen[Selection(seen)..] + [x]
            else counted == [] && seen[Selection(seen)..] == []
  {
    var i := Selection(seen);
    SelectionStep(seen, x);
    if i < |seen| || x.selected {
      SliceOn(seen, x, i);
    }
  }

  lemma SliceOn(seen: seq<Sample>, x: Sample, i: nat)
    requires i <= |seen|
    ensures (seen + [x])[i..] == seen[i..] + [x]
  {
  }

  /** In plain words: a violation is kept exactly if some sample from the selection on has it. */
  lemma KeptIff(e: Expectation, samples: seq<Sample>, v: string)
    ensures var counted := samples[Selection(samples)..];
            v in Observe(e, samples).violations <==>
            counted != [] && exists i :: 0 <= i < |counted| && v in PerSample(e, counted, counted[0].now)[i]
    ensures Distinct(Observe(e, samples).violations)
  {
    var counted := samples[Selection(samples)..];
    MonitorExact(e, samples);
    if counted != [] {
      FlattenHas(PerSample(e, counted, counted[0].now), v);
      DedupMeans(Flatten(PerSample(e, counted, counted[0].now)));
    }
  }

  class Monitor {
    const expected: Expectation
    var selectedAt: Option<int>
    var elapsedMs: int
    var shortSamples: nat
    var longSamples: nat
    var loaderSeen: bool
    var violations: seq<string>

    constructor (expected: Expectation)
      ensures View() == START && this.expected == expected
    {
      this.expected := expected;
      selectedAt, elapsedMs, shortSamples, longSamples, loaderSeen, violations := None, 0, 0, 0, false, [];
    }

    ghost function View(): State
      reads this
    {
      State(selectedAt, elapsedMs, shortSamples, longSamples, loaderSeen, violations)
    }

    method TakeSample(x: Sample)
      modifies this
      ensures View() == Turn(expected, old(View()), x)
    {
      if selectedAt.None? && !x.selected { return; }
      if selectedAt.None? { selectedAt := Some(x.now); }
      elapsedMs := x.now - selectedAt.value;
      if elapsedMs < SHORT { shortSamples := shortSamples + 1; }
      if elapsedMs > LONG { longSamples := longSamples + 1; }
      loaderSeen := loaderSeen || x.loader;
      var found := Violations(expected, x, elapsedMs);
      Push(found);
    }

    method Push(found: seq<string>)
      modifies this`violations
      ensures violations == AddNew(old(violations), found)
    {
      var i := 0;
      while i < |found|
        invariant i <= |found| && AddNew(old(violations), found) == AddNew(violations, found[i..])
      {
        if found[i] !in violations { violations := violations + [found[i]]; }
        i := i + 1;
      }
    }
  }
}
