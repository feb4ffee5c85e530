/**
 `captureUntil` of `evals/docs-shots/loop.ts`: wait for accepted content that
 holds across consecutive frames.  `frames` are the screenshots that would be
 taken one after the other up to the deadline.
 */
module StableCapture {
  import opened Basics

  datatype Frame = Frame(hash: string, accepted: bool, visibleText: string)

  const ENOUGH := 5

  /** Frame `i` shows the same accepted picture as the frame just before it. */
  ghost predicate Repeats(frames: seq<Frame>, i: nat) {
    0 < i < |frames| && frames[i].accepted && frames[i - 1].accepted && frames[i].hash == frames[i - 1].hash
  }

  /** Frame `i` is the last of `n` accepted frames in a row. */
  ghost predicate EndsRun(frames: seq<Frame>, i: nat, n: nat) {
    i < |frames| && n <= i + 1 && forall j :: i + 1 - n <= j <= i ==> frames[j].accepted
  }

  ghost predicate Good(frames: seq<Frame>, i: nat) { Repeats(frames, i) || EndsRun(frames, i, 5) }

  /** The first good frame, or, past the deadline, the visible text of the last frame taken. */
  datatype Capture = Captured(index: nat, animated: bool) | Failed(lastVisibleText: string)

  method CaptureUntil(frames: seq<Frame>) returns (r: Capture)
    ensures r.Captured? ==> Good(frames, r.index) && forall j: nat :: j < r.index ==> !Good(frames, j)
    ensures r.Captured? ==> (r.animated <==> !Repeats(frames, r.index))
    ensures r.Failed? ==> (forall j: nat :: j < |frames| ==> !Good(frames, j))
                          && r.lastVisibleText == if frames == [] then "" else frames[|frames| - 1].visibleText
  {
    var previous: Option<string> := None;
    var consecutivePasses := 0;
    var lastVisibleText := "";
    var i := 0;
    while i < |frames|
      invariant i <= |frames| && 0 <= consecutivePasses <= i && consecutivePasses < ENOUGH
      invariant forall j: nat :: j < i ==> !Good(frames, j)
      invariant forall j :: i - consecutivePasses <= j < i ==> frames[j].accepted
      invariant consecutivePasses < i ==> !frames[i - consecutivePasses - 1].accepted
      invariant previous == if consecutivePasses > 0 then Some(frames[i - 1].hash) else None
      invariant lastVisibleText == if i == 0 then "" else frames[i - 1].visibleText
    {
      var frame := frames[i];
      lastVisibleText := frame.visibleText;
      if frame.accepted {
        consecutivePasses := consecutivePasses + 1;
        if previous == Some(frame.hash) { return Captured(i, false); }
        if consecutivePasses >= ENOUGH { return Captured(i, true); }
        previous := Some(frame.hash);
      } else {
        previous := None;
        consecutivePasses := 0;
      }
      i := i + 1;
    }
    r := Failed(lastVisibleText);
  }

  /** A picture taken only because five frames passed was moving all the time. */
  lemma AnimatedThroughout(frames: seq<Frame>, i: nat)
    requires Good(frames, i) && !Repeats(frames, i) && forall j: nat :: j < i ==> !Good(frames, j)
    ensures forall j: nat :: i - 4 < j <= i ==> frames[j].hash != frames[j - 1].hash
    ensures i >= 5 ==> !frames[i - 5].accepted
  {
    forall j: nat | i - 4 < j <= i ensures frames[j].hash != frames[j - 1].hash {
      assert j < i ==> !Good(frames, j);
      assert EndsRun(frames, i, ENOUGH) && frames[j - 1].accepted && frames[j].accepted;
    }
    if i >= ENOUGH && frames[i - ENOUGH].accepted {
      assert EndsRun(frames, i - 1, ENOUGH);
      assert Good(frames, i - 1);
    }
  }
}
