/** The client: folds state frames, in order, into its replica. */
module Replica {
  import opened StreamTypes

  function EntityOps(hash: Hasher, kind: OpKind, entities: seq<EntityFrame>): (ops: seq<SentOp>)
    ensures |ops| == |entities|
  {
    seq(|entities|, i requires 0 <= i < |entities| =>
      SentOp(kind, entities[i].wid, entities[i].fid, hash(entities[i].entity)))
  }

  function LeaveOps(leaves: seq<EntityLeave>): (ops: seq<SentOp>)
    ensures |ops| == |leaves|
  {
    seq(|leaves|, i requires 0 <= i < |leaves| => SentOp(Leave, leaves[i].wid, leaves[i].fid, 0))
  }

  /** The operations a frame stands for, in the order the client performs them. */
  function FrameOps(hash: Hasher, frame: StateFrame): seq<SentOp> {
    match frame
    case Keyframe(_, _, entities) => EntityOps(hash, Enter, entities)
    case Delta(_, _, enters, updates, leaves) =>
      LeaveOps(leaves) + EntityOps(hash, Enter, enters) + EntityOps(hash, Update, updates)
  }

  /** The replica after one more frame: a keyframe starts from nothing, a delta from what there was. */
  ghost function AfterFrame(hash: Hasher, replica: View, frame: StateFrame): View {
    Override(if frame.Keyframe? then map[] else replica, OpMap(FrameOps(hash, frame)))
  }

  /** The replica of a client that has applied exactly these frames since the epoch began. */
  ghost function AfterFrames(hash: Hasher, frames: seq<StateFrame>): View {
    if frames == [] then map[]
    else AfterFrame(hash, AfterFrames(hash, frames[..|frames| - 1]), frames[|frames| - 1])
  }

  class ReplicaAccumulator {
    const hash: Hasher
    var entities: View

    constructor (hash: Hasher)
      ensures this.hash == hash && entities == map[]
    {
      this.hash := hash;
      entities := map[];
    }

    method Apply(frame: StateFrame)
      modifies this
      ensures entities == AfterFrame(hash, old(entities), frame)
    {
      if frame.Keyframe? {
        ApplyKeyframe(frame);
      } else {
        ApplyDelta(frame);
      }
    }

    method ApplyKeyframe(frame: StateFrame)
      requires frame.Keyframe?
      modifies this
      ensures entities == AfterFrame(hash, old(entities), frame)
    {
      entities := map[];
      AssignAll(Enter, frame.entities);
      ApplyOpsIsOverride(map[], EntityOps(hash, Enter, frame.entities));
    }

    method ApplyDelta(frame: StateFrame)
      requires frame.Delta?
      modifies this
      ensures entities == AfterFrame(hash, old(entities), frame)
    {
      ghost var before := entities;
      ghost var leaveOps := LeaveOps(frame.leaves);
      for i := 0 to |frame.leaves|
        invariant entities == ApplyOps(before, leaveOps[..i])
      {
        entities := entities - {frame.leaves[i].wid};
        assert leaveOps[..i + 1] == leaveOps[..i] + [leaveOps[i]];
        OpMapAppend(leaveOps[..i], leaveOps[i]);
      }
      assert leaveOps[..|frame.leaves|] == leaveOps;
      AssignAll(Enter, frame.enters);
      AssignAll(Update, frame.updates);
      ghost var enterOps, updateOps := EntityOps(hash, Enter, frame.enters), EntityOps(hash, Update, frame.updates);
      ApplyOpsConcat(before, leaveOps, enterOps);
      ApplyOpsConcat(before, leaveOps + enterOps, updateOps);
      ApplyOpsIsOverride(before, FrameOps(hash, frame));
    }

    /** Assigns the entry of every listed entity in turn. */
    method AssignAll(ghost kind: OpKind, list: seq<EntityFrame>)
      requires kind != Leave
      modifies this
      ensures entities == ApplyOps(old(entities), EntityOps(hash, kind, list))
    {
      ghost var ops := EntityOps(hash, kind, list);
      for i := 0 to |list|
        invariant entities == ApplyOps(old(entities), ops[..i])
      {
        entities := entities[list[i].wid := Entry(list[i].fid, hash(list[i].entity))];
        assert ops[..i + 1] == ops[..i] + [ops[i]];
        OpMapAppend(ops[..i], ops[i]);
      }
      assert ops[..|list|] == ops;
    }
  }

  lemma {:induction false} ApplyOpsConcat(view: View, a: seq<SentOp>, b: seq<SentOp>)
    ensures ApplyOps(view, a + b) == ApplyOps(ApplyOps(view, a), b)
  {
    if b == [] {
      assert a + b == a;
    } else {
      assert (a + b)[..|a + b| - 1] == a + b[..|b| - 1];
      ApplyOpsConcat(view, a, b[..|b| - 1]);
    }
  }
}
