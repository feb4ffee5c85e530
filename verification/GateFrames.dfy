/**
 How the parts of the gate system's invariant follow what happens to queues and
 requests.  Every part speaks of some components of a state only, so each lemma here
 takes just those: what is held, what the gates list, the inbox and the outbox with a
 message or a command joining or leaving, what is pending on whose behalf, the errors
 that are on their way, and the flag that the switches set.  The steps of the system
 are then put together from these frames.
 */
module GateFrames {
  import opened Basics
  import opened GateProtocol
  import opened GateSystem

  // -------- requests that do not move --------

  /** Whether or not in the inbox, every request stays where it is. */
  ghost predicate SameInbox(before: Requests, after: Requests) {
    && (forall id :: id in before ==> id in after)
    && (forall id :: id in after && after[id].place == Inbox ==> id in before && before[id].place == Inbox)
    && (forall id :: id in before && before[id].place == Inbox ==>
          after[id].place == Inbox && after[id].kind == before[id].kind && after[id].stage == before[id].stage)
  }

  lemma InboxFrame(msgs: seq<Message>, before: Requests, after: Requests, closed: bool)
    requires InboxOk(msgs, before, closed) && SameInbox(before, after)
    ensures InboxOk(msgs, after, closed)
  {
  }

  ghost predicate SameOutbox(before: Requests, after: Requests) {
    && (forall id :: id in before ==> id in after)
    && (forall id :: id in after && after[id].place.Outbox? ==> id in before && before[id].place == after[id].place)
    && (forall id :: id in before && before[id].place.Outbox? ==>
          after[id].place == before[id].place && after[id].stage == before[id].stage && after[id].asked == before[id].asked)
  }

  lemma OutboxFrame(cmds: seq<Sent>, before: Requests, after: Requests)
    requires OutboxOk(cmds, before) && SameOutbox(before, after)
    ensures OutboxOk(cmds, after)
  {
  }

  ghost predicate SameHeld(before: Requests, after: Requests) {
    && (forall id :: id in before ==> id in after)
    && (forall id :: id in after && after[id].place.InGate? ==> id in before && before[id].place == after[id].place)
    && (forall id :: id in before && before[id].place.InGate? ==>
          after[id].place == before[id].place && after[id].kind == before[id].kind && after[id].stage == before[id].stage)
  }

  lemma HeldFrame(gates: seq<Gate>, before: Requests, after: Requests)
    requires HeldOk(gates, before) && SameHeld(before, after)
    ensures HeldOk(gates, after)
  {
  }

  /** Stages only go forward, kinds stay. */
  lemma ListsFrame(gates: seq<Gate>, before: Requests, after: Requests)
    requires ListsOk(gates, before)
    requires forall id :: id in before ==> id in after && after[id].kind == before[id].kind
                                           && (before[id].stage == Response ==> after[id].stage == Response)
    ensures ListsOk(gates, after)
  {
  }

  // -------- the inbox --------

  /** A message that is no pause joins. */
  lemma InboxReply(msgs: seq<Message>, reqs: Requests, closed: bool, origin: Origin, ok: bool)
    requires InboxOk(msgs, reqs, closed)
    ensures InboxOk(msgs + [Reply(origin, ok)], reqs, closed)
  {
    var all := msgs + [Reply(origin, ok)];
    forall id | id in reqs && reqs[id].place == Inbox && !closed ensures Announced(all, id) {
      var i :| 0 <= i < |msgs| && msgs[i].Pausing? && msgs[i].id == id;
      assert all[i] == msgs[i];
    }
  }

  /** A pause joins and its request comes to the inbox; if the connection is closed only the latter. */
  lemma InboxPause(msgs: seq<Message>, before: Requests, after: Requests, id: RequestId)
    requires InboxOk(msgs, before, false)
    requires id in after && after == before[id := after[id]] && after[id].place == Inbox
    requires id in before ==> before[id].place != Inbox
    ensures InboxOk(msgs + [Pausing(id, after[id].kind, after[id].stage)], after, false)
  {
    var all := msgs + [Pausing(id, after[id].kind, after[id].stage)];
    assert all[|msgs|].Pausing? && all[|msgs|].id == id;
    forall other | other in after && after[other].place == Inbox ensures Announced(all, other) {
      if other != id {
        var i :| 0 <= i < |msgs| && msgs[i].Pausing? && msgs[i].id == other;
        assert all[i] == msgs[i];
      }
    }
  }

  /** The oldest message is taken out; a pause's request has left the inbox. */
  lemma InboxPop(msgs: seq<Message>, before: Requests, after: Requests)
    requires msgs != [] && InboxOk(msgs, before, false)
    requires forall id :: id in before ==> id in after
    requires forall id :: id in after && after[id].place == Inbox ==> id in before && before[id].place == Inbox
    requires forall id :: id in before && before[id].place == Inbox && msgs[0] != Pausing(id, before[id].kind, before[id].stage) ==>
               after[id].place == Inbox && after[id].kind == before[id].kind && after[id].stage == before[id].stage
    requires msgs[0].Pausing? ==> after[msgs[0].id].place != Inbox
    ensures InboxOk(msgs[1..], after, false)
  {
    var rest := msgs[1..];
    assert forall i :: 0 <= i < |rest| ==> rest[i] == msgs[i + 1];
    forall id | id in after && after[id].place == Inbox ensures Announced(rest, id) {
      var i :| 0 <= i < |msgs| && msgs[i].Pausing? && msgs[i].id == id;
      assert i > 0;
      assert rest[i - 1] == msgs[i];
    }
  }

  // -------- the outbox --------

  lemma OutboxSwitch(cmds: seq<Sent>, reqs: Requests, x: Sent)
    requires OutboxOk(cmds, reqs) && !IsAnswer(x.command)
    ensures OutboxOk(cmds + [x], reqs)
  {
    var all := cmds + [x];
    forall id | id in reqs && reqs[id].place.Outbox? ensures Queued(all, reqs[id].place.command) {
      var i :| 0 <= i < |cmds| && cmds[i].command == reqs[id].place.command;
      assert all[i] == cmds[i];
    }
  }

  /** The oldest command is taken out; an answer's request is done. */
  lemma OutboxPop(cmds: seq<Sent>, before: Requests, after: Requests)
    requires cmds != [] && OutboxOk(cmds, before)
    requires forall id :: id in before ==> id in after
    requires forall id :: id in after && after[id].place.Outbox? ==> id in before && before[id].place == after[id].place
    requires forall id :: id in before && before[id].place.Outbox? && before[id].place != Outbox(cmds[0].command) ==>
               after[id].place == before[id].place && after[id].stage == before[id].stage && after[id].asked == before[id].asked
    requires IsAnswer(cmds[0].command) ==> !after[cmds[0].command.id].place.Outbox?
    ensures OutboxOk(cmds[1..], after)
  {
    var rest := cmds[1..];
    assert forall i :: 0 <= i < |rest| ==> rest[i] == cmds[i + 1];
    forall id | id in after && after[id].place.Outbox? ensures Queued(rest, after[id].place.command) {
      var i :| 0 <= i < |cmds| && cmds[i].command == before[id].place.command;
      assert IsAnswer(cmds[i].command);
      assert i > 0;
      assert rest[i - 1] == cmds[i];
    }
  }

  /** Answers join, each to a different request that now waits for it. */
  lemma OutboxAnswers(cmds: seq<Sent>, more: seq<Sent>, ids: seq<RequestId>, before: Requests, after: Requests)
    requires OutboxOk(cmds, before) && |more| == |ids| && Distinct(ids)
    requires forall i :: 0 <= i < |ids| ==> IsAnswer(more[i].command) && more[i].command.id == ids[i]
    requires forall id :: id in before ==> id in after
    requires forall id :: id in ids ==> id in before && !before[id].place.Outbox?
    requires forall i :: 0 <= i < |ids| ==>
               after[ids[i]].place == Outbox(more[i].command) && Fits(more[i].command, ids[i], after[ids[i]])
    requires forall id :: id in after && id !in ids ==> id in before && after[id] == before[id]
    ensures OutboxOk(cmds + more, after)
  {
    var all, n := cmds + more, |cmds|;
    assert forall i :: 0 <= i < n ==> all[i] == cmds[i];
    assert forall i :: n <= i < |all| ==> all[i] == more[i - n];
    forall i | 0 <= i < |all| && IsAnswer(all[i].command)
      ensures var id := all[i].command.id; id in after && after[id].place == Outbox(all[i].command) && (i < n <==> id !in ids)
    {
      if i >= n { assert ids[i - n] in ids; }
    }
    forall i, k | 0 <= i < k < |all| && IsAnswer(all[i].command) && IsAnswer(all[k].command)
      ensures all[i].command.id != all[k].command.id
    {
      if i >= n { assert ids[i - n] != ids[k - n]; }
    }
    forall id | id in after && after[id].place.Outbox?
      ensures Fits(after[id].place.command, id, after[id]) && Queued(all, after[id].place.command)
    {
      if id in ids {
        var i :| 0 <= i < |ids| && ids[i] == id;
        assert all[n + i].command == after[id].place.command;
      } else {
        var i :| 0 <= i < n && cmds[i].command == before[id].place.command;
        assert all[i] == cmds[i];
      }
    }
  }

  // -------- what is pending --------

  lemma PendingSent(cmds: seq<Sent>, more: seq<Sent>, msgs: seq<Message>, origin: Origin)
    ensures Pending(cmds + more, msgs, origin) <==>
            Pending(cmds, msgs, origin) || exists i :: 0 <= i < |more| && more[i].origin == origin
  {
    var all, n := cmds + more, |cmds|;
    if i :| 0 <= i < |all| && all[i].origin == origin {
      assert i >= n ==> more[i - n].origin == origin;
    }
    if i :| 0 <= i < n && cmds[i].origin == origin { assert all[i].origin == origin; }
    if i :| 0 <= i < |more| && more[i].origin == origin { assert all[n + i].origin == origin; }
  }

  lemma PendingEmitted(cmds: seq<Sent>, msgs: seq<Message>, m: Message, origin: Origin)
    ensures Pending(cmds, msgs + [m], origin) <==> Pending(cmds, msgs, origin) || FromOrigin(m, origin)
  {
    var all := msgs + [m];
    assert all[|msgs|] == m;
    if i :| 0 <= i < |msgs| && FromOrigin(msgs[i], origin) { assert all[i] == msgs[i]; }
  }

  lemma PendingProcessed(cmds: seq<Sent>, msgs: seq<Message>, origin: Origin)
    requires cmds != []
    ensures Pending(cmds, msgs, origin) <==> Pending(cmds[1..], msgs, origin) || cmds[0].origin == origin
  {
    assert cmds == [cmds[0]] + cmds[1..];
    assert forall i :: 0 < i < |cmds| ==> cmds[i] == cmds[1..][i - 1];
    if i :| 0 <= i < |cmds[1..]| && cmds[1..][i].origin == origin { assert cmds[i + 1].origin == origin; }
  }

  lemma PendingHandled(cmds: seq<Sent>, msgs: seq<Message>, origin: Origin)
    requires msgs != []
    ensures Pending(cmds, msgs, origin) <==> Pending(cmds, msgs[1..], origin) || FromOrigin(msgs[0], origin)
  {
    assert forall i :: 0 < i < |msgs| ==> msgs[i] == msgs[1..][i - 1];
    if i :| 0 <= i < |msgs[1..]| && FromOrigin(msgs[1..][i], origin) { assert FromOrigin(msgs[i + 1], origin); }
  }

  // -------- errors on their way --------

  lemma ErrorEmitted(msgs: seq<Message>, m: Message, origin: Origin)
    ensures HasError(msgs + [m], origin) <==> HasError(msgs, origin) || m == Reply(origin, false)
  {
    var all := msgs + [m];
    assert all[|msgs|] == m;
    if i :| 0 <= i < |msgs| && msgs[i] == Reply(origin, false) { assert all[i] == msgs[i]; }
  }

  lemma ErrorHandled(msgs: seq<Message>, origin: Origin)
    requires msgs != []
    ensures HasError(msgs, origin) <==> HasError(msgs[1..], origin) || msgs[0] == Reply(origin, false)
  {
    if i :| 0 <= i < |msgs[1..]| && msgs[1..][i] == Reply(origin, false) { assert msgs[i + 1] == Reply(origin, false); }
    assert forall i :: 0 < i < |msgs| ==> msgs[i] == msgs[1..][i - 1];
  }

  /** Nobody's answer has missed since. */
  lemma MissedFrame(missed: set<Origin>, before: Requests, after: Requests)
    requires MissedOk(missed, before)
    requires forall id :: id in before ==> id in after && after[id].misses == before[id].misses
    requires forall id :: id in after && after[id].misses > 0 ==> id in before
    ensures MissedOk(missed, after)
  {
    if id :| id in before && before[id].misses > 0 { assert after[id].misses > 0; }
  }

  // -------- the controller's flag --------

  lemma FetchAppend(on: bool, msgs: seq<Message>, m: Message)
    ensures FetchAfter(on, msgs + [m]) == FetchAfter(FetchAfter(on, msgs), [m])
  {
    assert (msgs + [m])[..|msgs|] == msgs;
    assert [m][..0] == [];
  }

  lemma {:induction false} FetchPop(on: bool, msgs: seq<Message>)
    requires msgs != []
    ensures FetchAfter(on, msgs) == FetchAfter(FetchAfter(on, [msgs[0]]), msgs[1..])
    decreases |msgs|
  {
    var n := |msgs| - 1;
    if n == 0 {
      assert msgs == [msgs[0]] && msgs[1..] == [];
    } else {
      FetchPop(on, msgs[..n]);
      assert msgs[..n][1..] == msgs[1..][..n - 1];
      assert msgs[1..][n - 1] == msgs[n];
    }
  }

  lemma FetchOne(on: bool, m: Message)
    ensures FetchAfter(on, [m]) == if FromOrigin(m, Resuming) then true
                                   else if FromOrigin(m, Suspending) || FromOrigin(m, Disposing) then false else on
  {
    assert [m][..0] == [];
  }
}
