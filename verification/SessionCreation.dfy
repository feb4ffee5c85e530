/**
 `createSessionOutsideWindow` of `evals/worlds/session-shell.ts`: four attempts
 at a create that is not idempotent and whose reply may be lost, with a list
 before and after each.  What the server does at each attempt is a script: any
 list may fail, any create may commit or not and its reply may be lost.
 */
module SessionCreation {
  import opened Basics

  datatype Session = Session(id: string, title: string)

  datatype Creating = Commits(id: string, acknowledged: bool) | Refuses

  datatype Attempt = Attempt(listsBefore: bool, creating: Creating, listsAfter: bool)

  type Script = nat -> Attempt

  const ATTEMPTS := 4

  /** The first session of this title; an empty id counts as nothing found. */
  function Find(sessions: seq<Session>, title: string): Option<string> {
    if sessions == [] then None
    else if sessions[0].title == title then (if sessions[0].id == "" then None else Some(sessions[0].id))
    else Find(sessions[1..], title)
  }

  /** What a run returns, what the server holds then, and how many lists failed. */
  datatype Outcome = Outcome(result: Option<string>, sessions: seq<Session>, failed: nat)

  function Failures(ok: bool): nat { if ok then 0 else 1 }

  /** One attempt: it ends the call, or leaves the server's sessions and some failed lists behind. */
  datatype Round = Ends(outcome: Outcome) | GoesOn(sessions: seq<Session>, failures: nat)

  function AfterCreate(a: Attempt, sessions: seq<Session>, title: string): seq<Session> {
    if a.creating.Commits? then sessions + [Session(a.creating.id, title)] else sessions
  }

  function Try(a: Attempt, sessions: seq<Session>, title: string): Round {
    var f1 := Failures(a.listsBefore);
    var seen := if a.listsBefore then Find(sessions, title) else None;
    if seen.Some? then Ends(Outcome(seen, sessions, f1))
    else
      var now := AfterCreate(a, sessions, title);
      if a.creating.Commits? && a.creating.acknowledged then Ends(Outcome(Some(a.creating.id), now, f1))
      else
        var f2 := f1 + Failures(a.listsAfter);
        var found := if a.listsAfter then Find(now, title) else None;
        if found.Some? then Ends(Outcome(found, now, f2)) else GoesOn(now, f2)
  }

  function Plus(o: Outcome, failures: nat): Outcome { o.(failed := o.failed + failures) }

  /** The attempts from number `i` on. */
  function From(script: Script, i: nat, sessions: seq<Session>, title: string): Outcome
    decreases ATTEMPTS - i
  {
    if i >= ATTEMPTS then Outcome(None, sessions, 0)
    else match Try(script(i), sessions, title)
      case Ends(outcome) => outcome
      case GoesOn(now, failures) => Plus(From(script, i + 1, now, title), failures)
  }

  predicate Absent(sessions: seq<Session>, title: string) {
    forall x :: x in sessions ==> x.title != title
  }

  /** The server never hands out an empty id. */
  ghost predicate Identifies(script: Script, sessions: seq<Session>) {
    && (forall i: nat :: script(i).creating.Commits? ==> script(i).creating.id != "")
    && (forall x :: x in sessions ==> x.id != "")
  }

  lemma {:induction false} FindMeans(sessions: seq<Session>, title: string)
    requires forall x :: x in sessions ==> x.id != ""
    ensures Find(sessions, title).None? <==> Absent(sessions, title)
    ensures Find(sessions, title).Some? ==> Session(Find(sessions, title).value, title) in sessions
  {
    if sessions != [] {
      FindMeans(sessions[1..], title);
      assert sessions == [sessions[0]] + sessions[1..];
      assert sessions[0] == Session(sessions[0].id, sessions[0].title);
    }
  }

  /** The session at `i` is the first one of the title. */
  ghost predicate FirstOfTitle(sessions: seq<Session>, title: string, i: nat) {
    i < |sessions| && sessions[i].title == title && forall k :: 0 <= k < i ==> sessions[k].title != title
  }

  /** What is found is the id of the first session of the title, unless that id is empty. */
  lemma {:induction false} FindFirst(sessions: seq<Session>, title: string, id: string)
    ensures Find(sessions, title) == Some(id) <==>
            id != "" && exists i: nat :: FirstOfTitle(sessions, title, i) && sessions[i].id == id
  {
    if sessions != [] {
      var rest := sessions[1..];
      FindFirst(rest, title, id);
      if sessions[0].title == title {
        assert FirstOfTitle(sessions, title, 0);
      } else {
        assert forall i: nat :: FirstOfTitle(rest, title, i) ==> FirstOfTitle(sessions, title, i + 1);
        assert forall i: nat :: FirstOfTitle(sessions, title, i) ==> i > 0 && FirstOfTitle(rest, title, i - 1);
      }
    }
  }

  /** From `sessions` to `all` only sessions of this title have been added. */
  ghost predicate Grown(sessions: seq<Session>, all: seq<Session>, title: string) {
    sessions <= all && forall k :: |sessions| <= k < |all| ==> all[k].title == title
  }

  lemma TryAdds(a: Attempt, sessions: seq<Session>, title: string)
    requires forall x :: x in sessions ==> x.id != ""
    requires a.creating.Commits? ==> a.creating.id != ""
    ensures match Try(a, sessions, title)
            case Ends(o) => Grown(sessions, o.sessions, title) && (o.result.Some? ==> Session(o.result.value, title) in o.sessions)
            case GoesOn(now, _) => now == AfterCreate(a, sessions, title)
    ensures Grown(sessions, AfterCreate(a, sessions, title), title)
    ensures forall x :: x in AfterCreate(a, sessions, title) ==> x.id != ""
  {
    var now := AfterCreate(a, sessions, title);
    if a.creating.Commits? { assert now[|sessions|] in now; }
    FindMeans(sessions, title);
    FindMeans(now, title);
  }

  lemma GrownOn(a: seq<Session>, b: seq<Session>, c: seq<Session>, title: string)
    requires Grown(a, b, title) && Grown(b, c, title)
    ensures Grown(a, c, title)
  {
    assert forall k :: 0 <= k < |b| ==> c[k] == b[k];
  }

  /** Only sessions of this title are added, and a returned id belongs to one the server holds. */
  lemma {:induction false} OnlyAdds(script: Script, i: nat, sessions: seq<Session>, title: string)
    requires Identifies(script, sessions)
    ensures var o := From(script, i, sessions, title);
            Grown(sessions, o.sessions, title) && (o.result.Some? ==> Session(o.result.value, title) in o.sessions)
    decreases ATTEMPTS - i
  {
    if i < ATTEMPTS {
      var now := AfterCreate(script(i), sessions, title);
      TryAdds(script(i), sessions, title);
      if Try(script(i), sessions, title).GoesOn? {
        OnlyAdds(script, i + 1, now, title);
        GrownOn(sessions, now, From(script, i + 1, now, title).sessions, title);
      }
    }
  }

  /** The first commit is free, half of it if the title is there already. */
  function Allowance(sessions: seq<Session>, title: string): nat { if Absent(sessions, title) then 2 else 1 }

  /** Two lists must fail for every commit beyond the first. */
  lemma {:induction false} CommitsBounded(script: Script, i: nat, sessions: seq<Session>, title: string)
    requires Identifies(script, sessions)
    ensures var o := From(script, i, sessions, title);
            2 * (|o.sessions| - |sessions|) <= o.failed + Allowance(sessions, title)
    decreases ATTEMPTS - i
  {
    if i < ATTEMPTS {
      TryAdds(script(i), sessions, title);
      TryCosts(script(i), sessions, title);
      CommitsBounded(script, i + 1, AfterCreate(script(i), sessions, title), title);
    }
  }

  /** What one attempt commits, and leaves to be committed, it has paid for with failed lists. */
  lemma TryCosts(a: Attempt, sessions: seq<Session>, title: string)
    requires forall x :: x in sessions ==> x.id != ""
    requires a.creating.Commits? ==> a.creating.id != ""
    ensures match Try(a, sessions, title)
            case Ends(o) => 2 * (|o.sessions| - |sessions|) <= o.failed + Allowance(sessions, title)
            case GoesOn(now, failures) =>
              2 * (|now| - |sessions|) + Allowance(now, title) <= failures + Allowance(sessions, title)
  {
    var now := AfterCreate(a, sessions, title);
    if a.creating.Commits? { assert now[|sessions|] in now; }
    FindMeans(sessions, title);
    FindMeans(now, title);
  }

  /** With no failed list: at most one commit in all, it is the one returned, and
      an error means that nothing was committed. */
  lemma {:induction false} CleanRun(script: Script, i: nat, sessions: seq<Session>, title: string)
    requires Identifies(script, sessions) && Absent(sessions, title)
    requires From(script, i, sessions, title).failed == 0
    ensures var o := From(script, i, sessions, title);
            if o.result.Some? then o.sessions == sessions + [Session(o.result.value, title)] else o.sessions == sessions
    decreases ATTEMPTS - i
  {
    if i < ATTEMPTS {
      var a := script(i);
      var now := AfterCreate(a, sessions, title);
      FindMeans(sessions, title);
      FindMeans(now, title);
      if a.creating.Commits? {
        assert now[|sessions|] in now;
        FindAppended(sessions, Session(a.creating.id, title));
      } else {
        CleanRun(script, i + 1, sessions, title);
      }
    }
  }

  lemma {:induction false} FindAppended(sessions: seq<Session>, last: Session)
    requires Absent(sessions, last.title) && last.id != ""
    ensures Find(sessions + [last], last.title) == Some(last.id)
  {
    if sessions != [] {
      FindAppended(sessions[1..], last);
      assert (sessions + [last])[1..] == sessions[1..] + [last];
    }
  }

  /** What the server holds at attempt number `n`, if no earlier one has ended the call. */
  function HeldAt(script: Script, n: nat, sessions: seq<Session>, title: string): seq<Session> {
    if n == 0 then sessions else AfterCreate(script(n - 1), HeldAt(script, n - 1, sessions, title), title)
  }

  /** Attempt number `n` sees nothing of the title: its create is not acknowledged, and
      of its two lists each fails or comes while the server holds no session of the title. */
  predicate Blind(script: Script, n: nat, sessions: seq<Session>, title: string) {
    var a := script(n);
    && !(a.creating.Commits? && a.creating.acknowledged)
    && (a.listsBefore ==> Absent(HeldAt(script, n, sessions, title), title))
    && (a.listsAfter ==> Absent(HeldAt(script, n + 1, sessions, title), title))
  }

  lemma {:induction false} HeldIdentified(script: Script, n: nat, sessions: seq<Session>, title: string)
    requires Identifies(script, sessions)
    ensures Identifies(script, HeldAt(script, n, sessions, title))
  {
    if n > 0 { HeldIdentified(script, n - 1, sessions, title); }
  }

  lemma {:induction false} ErrorFrom(script: Script, i: nat, sessions: seq<Session>, title: string)
    requires Identifies(script, sessions) && i <= ATTEMPTS
    ensures From(script, i, HeldAt(script, i, sessions, title), title).result.None? <==>
            forall n: nat :: i <= n < ATTEMPTS ==> Blind(script, n, sessions, title)
    decreases ATTEMPTS - i
  {
    if i < ATTEMPTS {
      ErrorFrom(script, i + 1, sessions, title);
      BlindGoesOn(script, i, sessions, title);
      FirstAndRest(script, i, sessions, title);
    }
  }

  lemma FirstAndRest(script: Script, i: nat, sessions: seq<Session>, title: string)
    requires i < ATTEMPTS
    ensures (forall n: nat :: i <= n < ATTEMPTS ==> Blind(script, n, sessions, title)) <==>
            Blind(script, i, sessions, title) && forall n: nat :: i + 1 <= n < ATTEMPTS ==> Blind(script, n, sessions, title)
  {
  }

  /** An attempt does not end the call exactly if it is blind. */
  lemma BlindGoesOn(script: Script, i: nat, sessions: seq<Session>, title: string)
    requires Identifies(script, sessions)
    ensures var round := Try(script(i), HeldAt(script, i, sessions, title), title);
            && (round.GoesOn? <==> Blind(script, i, sessions, title))
            && (round.GoesOn? ==> round.sessions == HeldAt(script, i + 1, sessions, title))
            && (round.Ends? ==> round.outcome.result.Some?)
  {
    HeldIdentified(script, i, sessions, title);
    HeldIdentified(script, i + 1, sessions, title);
    FindMeans(HeldAt(script, i, sessions, title), title);
    FindMeans(HeldAt(script, i + 1, sessions, title), title);
  }

  /** An error is reported exactly when no create is acknowledged and every list made
      while the server holds a session of the title fails. */
  lemma ErrorIff(script: Script, sessions: seq<Session>, title: string)
    requires Identifies(script, sessions)
    ensures From(script, 0, sessions, title).result.None? <==> forall n: nat :: n < 4 ==> Blind(script, n, sessions, title)
  {
    ErrorFrom(script, 0, sessions, title);
  }

  /** How many of the two lists of attempts `i` to 3 fail. */
  function FailedLists(script: Script, i: nat): nat
    decreases 4 - i
  {
    if i >= 4 then 0
    else (if script(i).listsBefore then 0 else 1) + (if script(i).listsAfter then 0 else 1) + FailedLists(script, i + 1)
  }

  lemma {:induction false} ErrorCounts(script: Script, i: nat, sessions: seq<Session>, title: string)
    requires Identifies(script, sessions) && i <= 4
    requires forall n: nat :: i <= n < 4 ==> Blind(script, n, sessions, title)
    ensures var o := From(script, i, HeldAt(script, i, sessions, title), title);
            o.failed == FailedLists(script, i) && o.sessions == HeldAt(script, 4, sessions, title)
    decreases 4 - i
  {
    if i < 4 {
      BlindGoesOn(script, i, sessions, title);
      ErrorCounts(script, i + 1, sessions, title);
    }
  }

  /** An error is reported after all four creates, every one that commits adding its
      session, and after all eight lists. */
  lemma ErrorTriesAll(script: Script, sessions: seq<Session>, title: string)
    requires Identifies(script, sessions) && From(script, 0, sessions, title).result.None?
    ensures var o := From(script, 0, sessions, title);
            o.failed == FailedLists(script, 0) && o.sessions == HeldAt(script, 4, sessions, title)
  {
    ErrorIff(script, sessions, title);
    ErrorCounts(script, 0, sessions, title);
  }

  /** A different id for every number. */
  function Id(n: nat): (id: string)
    ensures |id| == n + 1
  {
    if n == 0 then "s" else Id(n - 1) + "s"
  }

  /** The bound is met: with 2k failed lists, k duplicates can be created, which are different sessions. */
  lemma Duplicates(k: nat) returns (script: Script)
    requires k < ATTEMPTS
    ensures Identifies(script, [])
    ensures var o := From(script, 0, [], "t");
            && |o.sessions| == 1 + k && o.failed == 2 * k && o.result == Some(o.sessions[0].id)
            && forall i, j :: 0 <= i < j <= k ==> o.sessions[i].id != o.sessions[j].id && o.sessions[i].title == o.sessions[j].title
  {
    script := (i: nat) => Attempt(i == 0, if i <= k then Commits(Id(i), false) else Refuses, i >= k);
    DuplicatesFrom(script, k, 0, []);
  }

  lemma {:induction false} DuplicatesFrom(script: Script, k: nat, i: nat, sessions: seq<Session>)
    requires i <= k < ATTEMPTS && |sessions| == i && forall n :: 0 <= n < i ==> sessions[n] == Session(Id(n), "t")
    requires forall n: nat :: script(n) == Attempt(n == 0, if n <= k then Commits(Id(n), false) else Refuses, n >= k)
    ensures var o := From(script, i, sessions, "t");
            && |o.sessions| == 1 + k && o.failed == 2 * (k - i) + (if i == 0 then 0 else 1) && o.result == Some(Id(0))
            && forall n :: 0 <= n <= k ==> o.sessions[n] == Session(Id(n), "t")
    decreases k - i
  {
    var now := sessions + [Session(Id(i), "t")];
    assert script(i) == Attempt(i == 0, Commits(Id(i), false), i >= k);
    assert now[0] == Session(Id(0), "t");
    assert Find(now, "t") == Some(Id(0));
    if i < k { DuplicatesFrom(script, k, i + 1, now); }
  }

  // -------- the loop --------

  class Server {
    var sessions: seq<Session>

    method List(ok: bool) returns (data: Option<seq<Session>>)
      ensures data == if ok then Some(sessions) else None
    {
      data := if ok then Some(sessions) else None;
    }

    method Create(title: string, creating: Creating) returns (id: Option<string>)
      modifies this
      ensures sessions == if creating.Commits? then old(sessions) + [Session(creating.id, title)] else old(sessions)
      ensures id == if creating.Commits? && creating.acknowledged then Some(creating.id) else None
    {
      id := None;
      if creating.Commits? {
        sessions := sessions + [Session(creating.id, title)];
        if creating.acknowledged { id := Some(creating.id); }
      }
    }
  }

  method FindCreated(server: Server, title: string, ok: bool) returns (id: Option<string>, failed: nat)
    ensures id == (if ok then Find(server.sessions, title) else None) && failed == Failures(ok)
  {
    var data := server.List(ok);
    if data.None? { return None, 1; }
    return Find(data.value, title), 0;
  }

  method TryOnce(server: Server, title: string, a: Attempt) returns (result: Option<string>, failed: nat)
    modifies server
    ensures match Try(a, old(server.sessions), title)
            case Ends(o) => result.Some? && o == Outcome(result, server.sessions, failed)
            case GoesOn(now, failures) => result.None? && now == server.sessions && failures == failed
  {
    result, failed := FindCreated(server, title, a.listsBefore);
    if result.Some? { return; }
    result := server.Create(title, a.creating);
    if result.Some? { return; }
    var after: nat;
    result, after := FindCreated(server, title, a.listsAfter);
    failed := failed + after;
  }

  lemma FromStep(script: Script, i: nat, sessions: seq<Session>, title: string, failed: nat)
    requires i < ATTEMPTS
    ensures Plus(From(script, i, sessions, title), failed) ==
            match Try(script(i), sessions, title)
            case Ends(o) => Plus(o, failed)
            case GoesOn(now, failures) => Plus(From(script, i + 1, now, title), failed + failures)
  {
  }

  method CreateOutsideWindow(server: Server, title: string, script: Script)
    returns (result: Option<string>, failed: nat)
    modifies server
    ensures Outcome(result, server.sessions, failed) == From(script, 0, old(server.sessions), title)
  {
    failed := 0;
    var attempt := 0;
    while attempt < ATTEMPTS
      invariant attempt <= ATTEMPTS
      invariant From(script, 0, old(server.sessions), title) == Plus(From(script, attempt, server.sessions, title), failed)
    {
      ghost var before := server.sessions;
      var more: nat;
      result, more := TryOnce(server, title, script(attempt));
      FromStep(script, attempt, before, title, failed);
      failed := failed + more;
      if result.Some? { return; }
      attempt := attempt + 1;
    }
    result := None;
  }

  /** The whole promise, for a title nobody has used. */
  lemma FreshTitle(script: Script, sessions: seq<Session>, title: string)
    requires Identifies(script, sessions) && Absent(sessions, title)
    ensures var o := From(script, 0, sessions, title);
            && Grown(sessions, o.sessions, title)
            && |o.sessions| - |sessions| <= 1 + o.failed / 2
            && (o.result.Some? ==> Session(o.result.value, title) in o.sessions[|sessions|..])
            && (o.failed == 0 ==> o.sessions == sessions + if o.result.Some? then [Session(o.result.value, title)] else [])
  {
    var o := From(script, 0, sessions, title);
    CommitsBounded(script, 0, sessions, title);
    OnlyAdds(script, 0, sessions, title);
    if o.failed == 0 { CleanRun(script, 0, sessions, title); }
    if o.result.Some? { IsNew(sessions, o.sessions, Session(o.result.value, title)); }
  }

  lemma IsNew(sessions: seq<Session>, all: seq<Session>, x: Session)
    requires sessions <= all && x in all && Absent(sessions, x.title)
    ensures x in all[|sessions|..]
  {
    var k :| 0 <= k < |all| && all[k] == x;
    assert k >= |sessions|;
    assert all[|sessions|..][k - |sessions|] == x;
  }
}
