/** Acknowledgement of a snapshot: the sent operations up to it are replayed on the acknowledged view. */
module Acknowledge {
  import opened StreamTypes
  import opened Connection

  datatype AckResult = Accepted | DuplicateIgnored | UnknownSnapshot | EpochMismatch

  /** One operation on the acknowledged view; frequency and send tick are not carried by operations. */
  function AckOp(acked: map<WorldId, Tracked>, op: SentOp): map<WorldId, Tracked> {
    if op.kind == Leave then acked - {op.wid}
    else
      var entry := if op.wid in acked then acked[op.wid] else Tracked(0, 0, OnChange, 0);
      acked[op.wid := entry.(fid := op.fid, hash := op.hash)]
  }

  function AckOps(acked: map<WorldId, Tracked>, ops: seq<SentOp>): map<WorldId, Tracked> {
    if ops == [] then acked else AckOp(AckOps(acked, ops[..|ops| - 1]), ops[|ops| - 1])
  }

  function AckRecords(acked: map<WorldId, Tracked>, records: seq<SentRecord>): map<WorldId, Tracked> {
    if records == [] then acked else AckOps(AckRecords(acked, records[..|records| - 1]), records[|records| - 1].ops)
  }

  /** The WIDs of the replayed operations, in replay order. */
  function OpWids(ops: seq<SentOp>): (wids: seq<WorldId>)
    ensures |wids| == |ops|
  {
    seq(|ops|, i requires 0 <= i < |ops| => ops[i].wid)
  }

  function ReplayedWids(records: seq<SentRecord>): seq<WorldId> {
    if records == [] then [] else ReplayedWids(records[..|records| - 1]) + OpWids(records[|records| - 1].ops)
  }

  function Outcome(c: Conn, snapshotId: nat): AckResult {
    if snapshotId <= c.floor then EpochMismatch
    else if snapshotId <= c.baseline then DuplicateIgnored
    else if exists i :: 0 <= i < |c.queue.records| && c.queue.records[i].snapshotId == snapshotId then Accepted
    else UnknownSnapshot
  }

  /** `c'` is `c` after an accepted acknowledgement. */
  ghost predicate AckedTo(c: Conn, snapshotId: nat, c': Conn) {
    var n := CoveredCount(c.queue.records, snapshotId);
    var replayed := c.queue.records[..n];
    && c' == c.(acked := AckRecords(c.acked, replayed), dirty := c.dirty + ReplayedWids(replayed),
                baseline := snapshotId, queue := c'.queue)
    && c'.queue.Balanced() && c'.queue.records == c.queue.records[n..]
  }

  method AcknowledgeSnapshot(conn: ConnectionProjection, snapshotId: nat) returns (result: AckResult)
    requires conn.queue.Balanced()
    modifies conn
    ensures result == Outcome(old(conn.State()), snapshotId)
    ensures result != Accepted ==> conn.State() == old(conn.State())
    ensures result == Accepted ==> AckedTo(old(conn.State()), snapshotId, conn.State())
  {
    result := Classify(conn.floor, conn.ackedBaseline, conn.queue.records, snapshotId);
    if result == Accepted {
      AdvanceAcked(conn, snapshotId);
    }
  }

  method Classify(floor: nat, baseline: nat, records: seq<SentRecord>, snapshotId: nat) returns (result: AckResult)
    ensures result ==
      if snapshotId <= floor then EpochMismatch
      else if snapshotId <= baseline then DuplicateIgnored
      else if exists i :: 0 <= i < |records| && records[i].snapshotId == snapshotId then Accepted
      else UnknownSnapshot
  {
    if snapshotId <= floor {
      return EpochMismatch;
    }
    if snapshotId <= baseline {
      return DuplicateIgnored;
    }
    for i := 0 to |records|
      invariant forall j | 0 <= j < i :: records[j].snapshotId != snapshotId
    {
      if records[i].snapshotId == snapshotId {
        return Accepted;
      }
    }
    return UnknownSnapshot;
  }

  method AdvanceAcked(conn: ConnectionProjection, snapshotId: nat)
    requires conn.queue.Balanced()
    modifies conn
    ensures AckedTo(old(conn.State()), snapshotId, conn.State())
  {
    var acked, dirty := Replay(conn.queue.records, conn.ackedView, conn.ackedDirty, snapshotId);
    conn.ackedView := acked;
    conn.ackedDirty := dirty;
    conn.ackedBaseline := snapshotId;
    conn.DropRecordsThrough(snapshotId);
  }

  /** Replays, oldest first, the records up to the acknowledged snapshot. */
  method Replay(records: seq<SentRecord>, acked: map<WorldId, Tracked>, dirty: seq<WorldId>, snapshotId: nat)
    returns (acked': map<WorldId, Tracked>, dirty': seq<WorldId>)
    ensures acked' == AckRecords(acked, records[..CoveredCount(records, snapshotId)])
    ensures dirty' == dirty + ReplayedWids(records[..CoveredCount(records, snapshotId)])
  {
    acked', dirty' := acked, dirty;
    var i := 0;
    while i < |records| && records[i].snapshotId <= snapshotId
      invariant 0 <= i <= CoveredCount(records, snapshotId)
      invariant acked' == AckRecords(acked, records[..i])
      invariant dirty' == dirty + ReplayedWids(records[..i])
    {
      assert records[..i + 1][..i] == records[..i];
      acked', dirty' := ReplayRecord(acked', dirty', records[i]);
      i := i + 1;
    }
  }

  method ReplayRecord(acked: map<WorldId, Tracked>, dirty: seq<WorldId>, record: SentRecord)
    returns (acked': map<WorldId, Tracked>, dirty': seq<WorldId>)
    ensures acked' == AckOps(acked, record.ops)
    ensures dirty' == dirty + OpWids(record.ops)
  {
    acked', dirty' := acked, dirty;
    var ops := record.ops;
    for i := 0 to |ops|
      invariant acked' == AckOps(acked, ops[..i])
      invariant dirty' == dirty + OpWids(ops)[..i]
    {
      assert ops[..i + 1][..i] == ops[..i];
      var op := ops[i];
      if op.kind == Leave {
        acked' := acked' - {op.wid};
      } else {
        var entry := if op.wid in acked' then acked'[op.wid] else Tracked(0, 0, OnChange, 0);
        acked' := acked'[op.wid := entry.(fid := op.fid, hash := op.hash)];
      }
      dirty' := dirty' + [op.wid];
    }
    assert ops[..|ops|] == ops;
  }

  lemma {:induction false} AckOpsView(acked: map<WorldId, Tracked>, ops: seq<SentOp>)
    ensures ViewOf(AckOps(acked, ops)) == Override(ViewOf(acked), OpMap(ops))
  {
    if ops != [] {
      var init, last := ops[..|ops| - 1], ops[|ops| - 1];
      AckOpsView(acked, init);
      AckOpView(AckOps(acked, init), last);
      OverrideOne(ViewOf(acked), OpMap(init), last);
    }
  }

  lemma AckOpView(acked: map<WorldId, Tracked>, op: SentOp)
    ensures ViewOf(AckOp(acked, op)) == ApplyOp(ViewOf(acked), op)
  {
  }

  /** Seen as a view, replaying records merges all their operations into the acknowledged view. */
  lemma {:induction false} AckRecordsView(acked: map<WorldId, Tracked>, records: seq<SentRecord>)
    ensures ViewOf(AckRecords(acked, records)) == Override(ViewOf(acked), RecordOps(records))
  {
    if records != [] {
      var init, last := records[..|records| - 1], records[|records| - 1];
      AckRecordsView(acked, init);
      AckOpsView(AckRecords(acked, init), last.ops);
      OverrideTwice(ViewOf(acked), RecordOps(init), OpMap(last.ops));
    }
  }

  lemma {:induction false} AckOpsUntouched(acked: map<WorldId, Tracked>, ops: seq<SentOp>, w: WorldId)
    requires w !in OpMap(ops)
    ensures w in AckOps(acked, ops) <==> w in acked
    ensures w in acked ==> AckOps(acked, ops)[w] == acked[w]
    ensures w !in OpWids(ops)
  {
    if ops != [] {
      var init := ops[..|ops| - 1];
      AckOpsUntouched(acked, init, w);
      assert OpWids(ops) == OpWids(init) + [ops[|ops| - 1].wid];
    }
  }

  /** WIDs outside the replayed records keep their whole entry; the replayed ones become dirty. */
  lemma {:induction false} AckRecordsUntouched(acked: map<WorldId, Tracked>, records: seq<SentRecord>, w: WorldId)
    ensures w !in RecordOps(records) ==>
              && (w in AckRecords(acked, records) <==> w in acked)
              && (w in acked ==> AckRecords(acked, records)[w] == acked[w])
    ensures w in ReplayedWids(records) <==> w in RecordOps(records)
  {
    if records != [] {
      var init, last := records[..|records| - 1], records[|records| - 1];
      AckRecordsUntouched(acked, init, w);
      if w !in OpMap(last.ops) {
        AckOpsUntouched(AckRecords(acked, init), last.ops, w);
      } else {
        OpMapContents(last.ops);
        var i :| 0 <= i < |last.ops| && last.ops[i].wid == w;
        assert OpWids(last.ops)[i] == w;
      }
    }
  }
}
