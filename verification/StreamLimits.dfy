/** The limits on unacknowledged records: when a new record stays, and when it pushes nothing out. */
module StreamLimits {
  import opened StreamTypes
  import opened Connection
  import opened FrameScan
  import opened FrameSpec
  import opened StreamRun

  lemma {:induction false} LastBytes(records: seq<SentRecord>, record: SentRecord)
    ensures TotalBytes(records + [record]) == TotalBytes(records) + record.bytes
  {
    TotalBytesConcat(records, [record]);
    assert [record][1..] == [];
  }

  /** The newest record stays exactly if it would fit an empty queue. */
  lemma {:induction false} NewestStaysIff(records: seq<SentRecord>, record: SentRecord, maxFrames: nat, maxBytes: nat)
    ensures EvictCount(records + [record], maxFrames, maxBytes) < |records| + 1 <==> 1 <= maxFrames && record.bytes <= maxBytes
  {
    LastBytes(records, record);
    if records == [] {
      assert (records + [record])[1..] == [];
    } else {
      assert (records + [record])[1..] == records[1..] + [record];
      NewestStaysIff(records[1..], record, maxFrames, maxBytes);
    }
  }

  predicate WithinLimits(records: seq<SentRecord>, maxFrames: nat, maxBytes: nat) {
    |records| <= maxFrames && TotalBytes(records) <= maxBytes
  }

  /** Eviction takes the fewest of the oldest records that bring the rest within both limits. */
  lemma {:induction false} EvictionIsLeast(records: seq<SentRecord>, maxFrames: nat, maxBytes: nat)
    ensures var n := EvictCount(records, maxFrames, maxBytes);
            && WithinLimits(records[n..], maxFrames, maxBytes)
            && forall j | 0 <= j < n :: !WithinLimits(records[j..], maxFrames, maxBytes)
  {
    var n := EvictCount(records, maxFrames, maxBytes);
    if n == 0 {
      assert records[0..] == records;
    } else {
      EvictionIsLeast(records[1..], maxFrames, maxBytes);
      assert records[1..][n - 1..] == records[n..];
      forall j | 0 <= j < n
        ensures !WithinLimits(records[j..], maxFrames, maxBytes)
      {
        if j > 0 {
          assert records[1..][j - 1..] == records[j..];
        } else {
          assert records[0..] == records;
        }
      }
    }
  }

  /** There is room for one more record of `n` operations. */
  predicate HasRoom(c: Conn, cfg: Config, n: nat) {
    |c.queue.records| + 1 <= cfg.maxUnackedFrames && TotalBytes(c.queue.records) + n * SENT_OP_BYTES <= cfg.maxUnackedBytes
  }

  lemma {:induction false} ListedSize(ops: seq<SentOp>)
    requires DistinctWids(ops)
    ensures |OpMap(ops)| == |ops|
  {
    if ops != [] {
      var init, last := ops[..|ops| - 1], ops[|ops| - 1];
      ListedSize(init);
      OpMapContents(init);
      forall i | 0 <= i < |init|
        ensures init[i].wid != last.wid
      {
        assert ops[i].wid != ops[|ops| - 1].wid;
      }
    }
  }

  /** Committing a frame evicts nothing exactly if there is room for its record. */
  lemma RoomIff(c: Conn, input: BuildInput, ops: seq<SentOp>, sent: Ops, c': Conn)
    requires Committed(c, input, ops, c') && Lists(ops, sent)
    ensures Evicting(c, c') <==> !HasRoom(c, input.cfg, |sent|)
  {
    ListedSize(ops);
    LastBytes(c.queue.records, MakeRecord(input.snapshotId, ops));
    var n := CommittedBooks(c, input, ops, c');
  }

  /** Committing a frame keeps its record exactly if the record is within the limits on its own. */
  lemma RecordKeptIff(c: Conn, input: BuildInput, ops: seq<SentOp>, sent: Ops, c': Conn)
    requires Committed(c, input, ops, c') && Lists(ops, sent)
    ensures c'.queue.records != [] <==> 1 <= input.cfg.maxUnackedFrames && |sent| * SENT_OP_BYTES <= input.cfg.maxUnackedBytes
  {
    ListedSize(ops);
    NewestStaysIff(c.queue.records, MakeRecord(input.snapshotId, ops), input.cfg.maxUnackedFrames, input.cfg.maxUnackedBytes);
  }
}
