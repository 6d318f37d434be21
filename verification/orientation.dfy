/** The face-forward policy of an agent. Each agent keeps the last position it
    was seen at (its history) and a hidden locator that its aim constraint
    points away from. On every evaluation the locator is put on the history,
    so the agent looks along the direction it has just travelled, and the
    history becomes the current position. With face-forward off, the locator
    is put on the agent itself, which short-circuits the aim constraint. The
    look-at itself belongs to the host and is not part of this module. */
module Orientation {
  import opened Vectors

  /** The locator target chosen by one evaluation, and the history after it. */
  datatype Aim = Aim(target: Vec3, last: Vec3)

  /** One evaluation of the agent at `position`, with history `last`. */
  function Step(last: Vec3, faceForward: bool, position: Vec3): (a: Aim)
    ensures a.last == position
    ensures faceForward ==> a.target == last
    ensures !faceForward ==> a.target == position
  {
    var history := if !faceForward then position else last;
    Aim(history, position)
  }

  /** One evaluated frame: the agent's face-forward attribute and its position. */
  datatype Frame = Frame(faceForward: bool, position: Vec3)

  /** The locator targets of a sequence of evaluations, and the final history. */
  datatype Trace = Trace(targets: seq<Vec3>, last: Vec3)

  function Run(last: Vec3, frames: seq<Frame>): (t: Trace)
    ensures |t.targets| == |frames|
    ensures |frames| > 0 ==> t.last == frames[|frames| - 1].position
    ensures |frames| == 0 ==> t.last == last
    decreases |frames|
  {
    if |frames| == 0 then Trace([], last)
    else
      var a := Step(last, frames[0].faceForward, frames[0].position);
      var rest := Run(a.last, frames[1..]);
      Trace([a.target] + rest.targets, rest.last)
  }

  /** The position the locator should follow at frame `k`: the agent's own
      position with face-forward off, otherwise the position one evaluation
      earlier (the initial history for the first frame). */
  function Expected(last: Vec3, frames: seq<Frame>, k: nat): Vec3
    requires k < |frames|
  {
    if !frames[k].faceForward then frames[k].position
    else if k == 0 then last
    else frames[k - 1].position
  }

  /** Every target of a run lags the agent by exactly one evaluation when
      face-forward is on, and sits on the agent when it is off. */
  lemma {:induction false} RunLagsOneStep(last: Vec3, frames: seq<Frame>)
    ensures forall k :: 0 <= k < |frames| ==> Run(last, frames).targets[k] == Expected(last, frames, k)
    decreases |frames|
  {
    if |frames| > 0 {
      var a := Step(last, frames[0].faceForward, frames[0].position);
      RunLagsOneStep(a.last, frames[1..]);
      forall k | 0 <= k < |frames|
        ensures Run(last, frames).targets[k] == Expected(last, frames, k)
      {
        if k > 0 {
          assert Run(last, frames).targets[k] == Run(a.last, frames[1..]).targets[k - 1];
          assert Expected(a.last, frames[1..], k - 1) == Expected(last, frames, k);
        }
      }
    }
  }

  /** With face-forward off throughout, the locator never leaves the agent. */
  lemma PinnedWhenOff(last: Vec3, frames: seq<Frame>)
    requires forall k :: 0 <= k < |frames| ==> !frames[k].faceForward
    ensures forall k :: 0 <= k < |frames| ==> Run(last, frames).targets[k] == frames[k].position
  {
    RunLagsOneStep(last, frames);
  }

  /** The history seeded from the position the agent has when its rig is
      built, as written: all three components copy the x position. */
  function InitialHistoryAsWritten(position: Vec3): (h: Vec3)
    ensures h.x == h.y == h.z == position.x
  {
    Vec3(position.x, position.x, position.x)
  }

  /** The history seeded from the position the agent has when its rig is
      built, component by component. */
  function InitialHistory(position: Vec3): (h: Vec3)
    ensures h == position
    ensures h == InitialHistoryAsWritten(position) <==> position.y == position.x == position.z
  {
    position
  }

  /** With the as-written seed, the first face-forward target of an agent
      created at (0, 1, 2) is (0, 0, 0), not where the agent stood. */
  lemma AsWrittenFirstTargetDrifts()
    ensures var p := Vec3(0.0, 1.0, 2.0);
            Run(InitialHistoryAsWritten(p), [Frame(true, p)]).targets[0] != p
  {
    var p := Vec3(0.0, 1.0, 2.0);
    assert Run(InitialHistoryAsWritten(p), [Frame(true, p)]).targets[0] == Vec3(0.0, 0.0, 0.0);
  }

  /** With the corrected seed and face-forward on throughout, the targets are
      exactly the agent's positions shifted by one evaluation, starting from
      the position the agent was created at. */
  lemma {:induction false} FaceForwardTrailsCreation(created: Vec3, frames: seq<Frame>)
    requires forall k :: 0 <= k < |frames| ==> frames[k].faceForward
    ensures |frames| > 0 ==> Run(InitialHistory(created), frames).targets[0] == created
    ensures forall k :: 0 < k < |frames| ==> Run(InitialHistory(created), frames).targets[k] == frames[k - 1].position
  {
    RunLagsOneStep(InitialHistory(created), frames);
    if |frames| > 0 {
      assert Expected(InitialHistory(created), frames, 0) == created;
    }
  }
}
