/** Per-connection projection state: FID table, views, and the queue of unacknowledged records. */
module Connection {
  import opened StreamTypes

  /** sizeof(SentOp) on a 64-bit target. */
  const SENT_OP_BYTES := 32

  /** The two FID maps of an epoch and the next FID to hand out. */
  datatype FidTable = FidTable(fids: map<WorldId, FeatureId>, wids: map<FeatureId, WorldId>, next: FeatureId) {
    /** The maps are inverse to each other, and every FID ever handed out is below `next`. */
    ghost predicate Valid() {
      && (forall w | w in fids :: fids[w] in wids && wids[fids[w]] == w && 1 <= fids[w] < next)
      && (forall f | f in wids :: wids[f] in fids && fids[wids[f]] == f)
      && 1 <= next
    }

    /** The table with a FID for `w`: the one it has, or the next one. */
    function With(w: WorldId): FidTable {
      if w in fids then this else FidTable(fids[w := next], wids[next := w], next + 1)
    }

    /** Nothing handed out is ever taken back within an epoch. */
    ghost predicate Extends(earlier: FidTable) {
      && (forall w | w in earlier.fids :: w in fids && fids[w] == earlier.fids[w])
      && next >= earlier.next
    }
  }

  /** Hands out FIDs, in the given order, to the WIDs of `need` that have none. */
  function MapFids(table: FidTable, order: seq<WorldId>, need: set<WorldId>): FidTable {
    if order == [] then table
    else
      var t := MapFids(table, order[..|order| - 1], need);
      if order[|order| - 1] in need then t.With(order[|order| - 1]) else t
  }

  lemma {:induction false} MapFidsExtends(table: FidTable, order: seq<WorldId>, need: set<WorldId>)
    requires table.Valid()
    ensures MapFids(table, order, need).Valid()
    ensures MapFids(table, order, need).Extends(table)
    ensures forall w | w in order && w in need :: w in MapFids(table, order, need).fids
    ensures forall w | w in MapFids(table, order, need).fids :: w in table.fids || (w in order && w in need)
  {
    if order != [] {
      MapFidsExtends(table, order[..|order| - 1], need);
    }
  }

  predicate Ascending(s: seq<nat>) {
    forall i, j | 0 <= i < j < |s| :: s[i] < s[j]
  }

  /** Handing out FIDs in ascending order depends on the needy WIDs only, not on what else is scanned. */
  lemma {:induction false} MapFidsAgree(table: FidTable, a: seq<WorldId>, b: seq<WorldId>, need: set<WorldId>)
    requires Ascending(a) && Ascending(b)
    requires forall w | w in need :: w in a <==> w in b
    ensures MapFids(table, a, need) == MapFids(table, b, need)
    decreases |a| + |b|
  {
    if a != [] && a[|a| - 1] !in need {
      MapFidsAgree(table, a[..|a| - 1], b, need);
    } else if b != [] && b[|b| - 1] !in need {
      MapFidsAgree(table, a, b[..|b| - 1], need);
    } else if a != [] || b != [] {
      assert a != [] && b != [] by {
        if a != [] { assert a[|a| - 1] in b; }
        if b != [] { assert b[|b| - 1] in a; }
      }
      assert a[|a| - 1] in b && b[|b| - 1] in a;
      MapFidsAgree(table, a[..|a| - 1], b[..|b| - 1], need);
    }
  }

  /** The queue of unacknowledged records with its books: their bytes, and per WID how often it occurs. */
  datatype SendQueue = SendQueue(records: seq<SentRecord>, bytes: nat, counts: map<WorldId, nat>) {
    ghost predicate Balanced() {
      Counted(counts, RecordWids(records)) && bytes == TotalBytes(records)
    }
  }

  datatype Schedule = Schedule(policyVersion: nat, needsKeyframe: bool, lastKeyframe: nat, nextKeyframe: nat)

  /** The fields of one connection, as a value. */
  datatype Conn = Conn(
    epoch: nat, sequence: nat, floor: nat, table: FidTable,
    current: map<WorldId, Tracked>, acked: map<WorldId, Tracked>, baseline: nat,
    schedule: Schedule, queue: SendQueue, dirty: seq<WorldId>)
  {
    /** The books balance, the records are in snapshot order, and the FID maps are inverse. */
    ghost predicate Valid() {
      && queue.Balanced()
      && Ordered(queue.records, baseline)
      && table.Valid()
    }
  }

  /** The multiplicities of a multiset of WIDs, as a table. */
  ghost function CountsOf(wids: multiset<WorldId>): map<WorldId, nat> {
    Tabulate((set w | w in wids), w => wids[w])
  }

  ghost predicate Counted(counts: map<WorldId, nat>, wids: multiset<WorldId>) {
    counts == CountsOf(wids)
  }

  function TotalBytes(records: seq<SentRecord>): nat {
    if records == [] then 0 else records[0].bytes + TotalBytes(records[1..])
  }

  predicate Ordered(records: seq<SentRecord>, baseline: nat) {
    && (forall i | 0 <= i < |records| :: baseline < records[i].snapshotId)
    && (forall i, j | 0 <= i < j < |records| :: records[i].snapshotId < records[j].snapshotId)
  }

  const NO_FIDS := FidTable(map[], map[], 1)
  const NO_RECORDS := SendQueue([], 0, map[])
  const FRESH := Conn(1, 0, 0, NO_FIDS, map[], map[], 0, Schedule(0, true, 0, 0), NO_RECORDS, [])

  function MakeRecord(snapshotId: nat, ops: seq<SentOp>): SentRecord {
    SentRecord(snapshotId, ops, |ops| * SENT_OP_BYTES)
  }

  /** How many of the oldest records go before both limits hold. */
  function EvictCount(records: seq<SentRecord>, maxFrames: nat, maxBytes: nat): (n: nat)
    ensures n <= |records|
  {
    if records != [] && (|records| > maxFrames || TotalBytes(records) > maxBytes)
    then 1 + EvictCount(records[1..], maxFrames, maxBytes)
    else 0
  }

  /** One of the first `n` records is later than the acknowledged baseline. */
  predicate AnyUnacked(records: seq<SentRecord>, n: nat, baseline: nat) {
    0 < n <= |records| && (records[n - 1].snapshotId > baseline || AnyUnacked(records, n - 1, baseline))
  }

  /** How many of the oldest records an acknowledgement of `snapshotId` covers. */
  function CoveredCount(records: seq<SentRecord>, snapshotId: nat): (n: nat)
    ensures n <= |records|
    ensures forall i | 0 <= i < n :: records[i].snapshotId <= snapshotId
    ensures n < |records| ==> records[n].snapshotId > snapshotId
  {
    if records != [] && records[0].snapshotId <= snapshotId then 1 + CoveredCount(records[1..], snapshotId) else 0
  }

  /** A new epoch: all is forgotten but the identity, the policy version and the keyframe ticks. */
  function ResetEpoch(c: Conn, snapshotFloor: nat): Conn {
    Conn(c.epoch + 1, 0, snapshotFloor, NO_FIDS, map[], map[], 0,
         c.schedule.(needsKeyframe := true), NO_RECORDS, [])
  }

  lemma {:induction false} TotalBytesConcat(a: seq<SentRecord>, b: seq<SentRecord>)
    ensures TotalBytes(a + b) == TotalBytes(a) + TotalBytes(b)
  {
    if a == [] {
      assert a + b == b;
    } else {
      assert (a + b)[1..] == a[1..] + b;
      TotalBytesConcat(a[1..], b);
    }
  }

  lemma FirstRecord(records: seq<SentRecord>)
    requires records != []
    ensures RecordWids(records) == Wids(records[0].ops) + RecordWids(records[1..])
  {
    assert records == records[..1] + records[1..];
    RecordWidsConcat(records[..1], records[1..]);
    assert records[..1][..0] == [];
  }

  method CountWids(counts: map<WorldId, nat>, ops: seq<SentOp>, ghost before: multiset<WorldId>)
    returns (counts': map<WorldId, nat>)
    requires Counted(counts, before)
    ensures Counted(counts', before + Wids(ops))
  {
    counts' := counts;
    for i := 0 to |ops|
      invariant Counted(counts', before + Wids(ops[..i]))
    {
      var w := ops[i].wid;
      CountOne(counts', before + Wids(ops[..i]), w);
      assert ops[..i + 1][..i] == ops[..i];
      assert before + Wids(ops[..i + 1]) == before + Wids(ops[..i]) + multiset{w};
      counts' := counts'[w := (if w in counts' then counts'[w] else 0) + 1];
    }
    assert ops[..|ops|] == ops;
  }

  method ReleaseRecordWids(counts: map<WorldId, nat>, record: SentRecord, ghost rest: multiset<WorldId>)
    returns (counts': map<WorldId, nat>)
    requires Counted(counts, Wids(record.ops) + rest)
    ensures Counted(counts', rest)
  {
    var ops := record.ops;
    counts' := counts;
    assert ops[0..] == ops;
    for i := 0 to |ops|
      invariant Counted(counts', Wids(ops[i..]) + rest)
    {
      UncountNext(counts', ops, i, rest);
      var w := ops[i].wid;
      if w in counts' {
        counts' := if counts'[w] == 1 then counts' - {w} else counts'[w := counts'[w] - 1];
      }
    }
  }

  lemma UncountNext(counts: map<WorldId, nat>, ops: seq<SentOp>, i: nat, rest: multiset<WorldId>)
    requires i < |ops| && Counted(counts, Wids(ops[i..]) + rest)
    ensures var w := ops[i].wid;
            && w in counts
            && Counted(if counts[w] == 1 then counts - {w} else counts[w := counts[w] - 1], Wids(ops[i + 1..]) + rest)
  {
    WidsFirst(ops, i);
    assert Wids(ops[i..]) + rest == Wids(ops[i + 1..]) + rest + multiset{ops[i].wid};
    UncountOne(counts, Wids(ops[i + 1..]) + rest, ops[i].wid);
  }

  class ConnectionProjection {
    var epoch: nat
    var sequence: nat
    var floor: nat
    var table: FidTable
    var currentView: map<WorldId, Tracked>
    var ackedView: map<WorldId, Tracked>
    var ackedBaseline: nat
    var schedule: Schedule
    var queue: SendQueue
    var ackedDirty: seq<WorldId>

    function State(): Conn
      reads this
    {
      Conn(epoch, sequence, floor, table, currentView, ackedView, ackedBaseline, schedule, queue, ackedDirty)
    }

    constructor ()
      ensures State() == FRESH
    {
      epoch, sequence, floor, table := 1, 0, 0, NO_FIDS;
      currentView, ackedView, ackedBaseline := map[], map[], 0;
      schedule, queue, ackedDirty := Schedule(0, true, 0, 0), NO_RECORDS, [];
    }

    /** Puts a frame's FIDs, view and keyframe schedule in place; nothing acknowledged is then dirty. */
    method Install(table: FidTable, view: map<WorldId, Tracked>, schedule: Schedule)
      modifies this
      ensures State() == old(State()).(table := table, current := view, schedule := schedule, dirty := [])
    {
      this.table, currentView, this.schedule, ackedDirty := table, view, schedule, [];
    }

    method RecordSent(snapshotId: nat, ops: seq<SentOp>)
      requires queue.Balanced()
      modifies this`queue
      ensures queue.Balanced() && queue.records == old(queue).records + [MakeRecord(snapshotId, ops)]
    {
      var record := MakeRecord(snapshotId, ops);
      var records := queue.records + [record];
      var counts := CountWids(queue.counts, ops, RecordWids(queue.records));
      TotalBytesConcat(queue.records, [record]);
      assert records[..|records| - 1] == queue.records;
      queue := SendQueue(records, queue.bytes + record.bytes, counts);
    }

    /** Drops the oldest record. */
    method PopFront()
      requires queue.records != [] && queue.Balanced()
      modifies this`queue
      ensures queue.Balanced() && queue.records == old(queue).records[1..]
    {
      var record, rest := queue.records[0], queue.records[1..];
      FirstRecord(queue.records);
      var counts := ReleaseRecordWids(queue.counts, record, RecordWids(rest));
      queue := SendQueue(rest, queue.bytes - record.bytes, counts);
    }

    /** Drops the oldest records until both limits hold; tells whether one of them was unacknowledged. */
    method EvictUnacked(maxFrames: nat, maxBytes: nat) returns (evicted: bool)
      requires queue.Balanced()
      modifies this`queue
      ensures queue.Balanced()
      ensures var n := EvictCount(old(queue).records, maxFrames, maxBytes);
              && queue.records == old(queue).records[n..]
              && evicted == AnyUnacked(old(queue).records, n, ackedBaseline)
    {
      evicted := false;
      ghost var n, was := 0, queue.records;
      while |queue.records| > maxFrames || queue.bytes > maxBytes
        invariant queue.Balanced()
        invariant 0 <= n <= |was| && queue.records == was[n..]
        invariant EvictCount(was, maxFrames, maxBytes) == n + EvictCount(queue.records, maxFrames, maxBytes)
        invariant evicted == AnyUnacked(was, n, ackedBaseline)
        decreases |queue.records|
      {
        assert queue.records[0] == was[n];
        var wasUnacked := queue.records[0].snapshotId > ackedBaseline;
        PopFront();
        if wasUnacked {
          evicted := true;
        }
        n := n + 1;
      }
    }

    method DropRecordsThrough(snapshotId: nat)
      requires queue.Balanced()
      modifies this`queue
      ensures queue.Balanced()
      ensures queue.records == old(queue).records[CoveredCount(old(queue).records, snapshotId)..]
    {
      ghost var n, was := 0, queue.records;
      while queue.records != [] && queue.records[0].snapshotId <= snapshotId
        invariant queue.Balanced()
        invariant 0 <= n <= |was| && queue.records == was[n..]
        invariant CoveredCount(was, snapshotId) == n + CoveredCount(queue.records, snapshotId)
        decreases |queue.records|
      {
        PopFront();
        n := n + 1;
      }
    }

    method ResetStreamEpoch(snapshotFloor: nat)
      modifies this
      ensures State() == ResetEpoch(old(State()), snapshotFloor)
    {
      epoch, sequence, floor, table := epoch + 1, 0, snapshotFloor, NO_FIDS;
      currentView, ackedView, ackedBaseline := map[], map[], 0;
      schedule, queue, ackedDirty := schedule.(needsKeyframe := true), NO_RECORDS, [];
    }
  }

  lemma CountOne(counts: map<WorldId, nat>, wids: multiset<WorldId>, w: WorldId)
    requires Counted(counts, wids)
    ensures Counted(counts[w := (if w in counts then counts[w] else 0) + 1], wids + multiset{w})
  {
  }

  lemma UncountOne(counts: map<WorldId, nat>, wids: multiset<WorldId>, w: WorldId)
    requires Counted(counts, wids + multiset{w})
    ensures w in counts
    ensures Counted(if counts[w] == 1 then counts - {w} else counts[w := counts[w] - 1], wids)
  {
  }

  lemma {:induction false} WidsFirst(ops: seq<SentOp>, i: nat)
    requires i < |ops|
    ensures Wids(ops[i..]) == Wids(ops[i + 1..]) + multiset{ops[i].wid}
    decreases |ops|
  {
    var init := ops[..|ops| - 1];
    if i < |init| {
      WidsFirst(init, i);
      assert ops[i..][..|ops| - i - 1] == init[i..];
      assert ops[i + 1..][..|ops| - i - 2] == init[i + 1..];
    }
  }
}
