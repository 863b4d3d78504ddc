/** FIDs over whole runs, and which frames can be acknowledged at all. */
module StreamFids {
  import opened Options
  import opened StreamTypes
  import opened Connection
  import opened Acknowledge
  import opened FrameScan
  import opened FrameSpec
  import opened StreamRun
  import opened StreamHistory
  import opened TrimUpdates
  import opened StreamLimits

  predicate OpFids(fids: map<WorldId, FeatureId>, op: SentOp) {
    op.kind != Leave ==> op.wid in fids && fids[op.wid] == op.fid
  }

  predicate ListFids(fids: map<WorldId, FeatureId>, ops: seq<SentOp>) {
    forall i | 0 <= i < |ops| :: OpFids(fids, ops[i])
  }

  predicate ViewFids(fids: map<WorldId, FeatureId>, view: map<WorldId, Tracked>) {
    forall w | w in view :: w in fids && fids[w] == view[w].fid
  }

  predicate RecordFids(fids: map<WorldId, FeatureId>, records: seq<SentRecord>) {
    forall i | 0 <= i < |records| :: ListFids(fids, records[i].ops)
  }

  /** Every FID the connection acknowledged or has in flight is the one in its table. */
  ghost predicate FidsAgree(c: Conn) {
    ViewFids(c.table.fids, c.acked) && RecordFids(c.table.fids, c.queue.records)
  }

  lemma {:induction false} AckOpsFids(fids: map<WorldId, FeatureId>, acked: map<WorldId, Tracked>, ops: seq<SentOp>)
    requires ViewFids(fids, acked) && ListFids(fids, ops)
    ensures ViewFids(fids, AckOps(acked, ops))
  {
    if ops != [] {
      AckOpsFids(fids, acked, ops[..|ops| - 1]);
      assert OpFids(fids, ops[|ops| - 1]);
    }
  }

  lemma {:induction false} AckRecordsFids(fids: map<WorldId, FeatureId>, acked: map<WorldId, Tracked>, records: seq<SentRecord>)
    requires ViewFids(fids, acked) && RecordFids(fids, records)
    ensures ViewFids(fids, AckRecords(acked, records))
  {
    if records != [] {
      AckRecordsFids(fids, acked, records[..|records| - 1]);
      AckOpsFids(fids, AckRecords(acked, records[..|records| - 1]), records[|records| - 1].ops);
    }
  }

  lemma ListedFids(fids: map<WorldId, FeatureId>, ops: seq<SentOp>, sent: Ops)
    requires Lists(ops, sent) && forall w | w in sent :: OpFids(fids, sent[w])
    ensures ListFids(fids, ops)
  {
    OpMapContents(ops);
    forall i | 0 <= i < |ops|
      ensures OpFids(fids, ops[i])
    {
      assert sent[ops[i].wid] == ops[i];
    }
  }

  /** A scan gives every WID it enters or updates the FID of the table. */
  lemma ScanFids(scan: Scan, table: FidTable, order: seq<WorldId>, done: set<WorldId>, w: WorldId)
    requires table.Valid() && ViewFids(table.fids, scan.acked) && scan.Entering(done) <= Elements(order)
    requires w in ScanOver(scan, table, order, done).ops
    ensures var r := ScanOver(scan, table, order, done); OpFids(r.table.fids, r.ops[w])
  {
    MapFidsExtends(table, order, scan.Entering(done));
    assert scan.Decide(w) == DoEnter ==> w in scan.Entering(done);
    assert ScanOver(scan, table, order, done).ops[w] == scan.OpFor(MapFids(table, order, scan.Entering(done)).fids, w);
  }

  lemma SentFids(s: Run, input: BuildInput, trace: BuildTrace)
    requires input.phase < input.cfg.keyframeInterval && Elements(input.visible) <= input.global.Keys
    requires s.conn.table.Valid() && FidsAgree(s.conn)
    ensures forall w | w in SentBy(s, input, trace) :: OpFids(PreparedBy(s, input, trace).table.fids, SentBy(s, input, trace)[w])
  {
    if BuildsKeyframe(s.conn, input) {
      MapFidsExtends(Opened(s.conn, input).table, input.visible, Shown(input));
      KeyframeOpKeys(Opened(s.conn, input), input, PreparedBy(s, input, trace).table.fids);
    } else {
      var scan, sent := ScanOf(s.conn, input), SentBy(s, input, trace);
      forall w | w in sent
        ensures OpFids(PreparedBy(s, input, trace).table.fids, sent[w])
      {
        if input.fromCache {
          ScanFids(scan, s.conn.table, trace.candidates, Elements(trace.candidates), w);
        } else {
          ScanFids(scan, s.conn.table, input.visible, scan.All(), w);
        }
      }
    }
  }

  lemma TickFids(hash: Hasher, s: Run, input: BuildInput, trace: BuildTrace, frame: Option<StateFrame>, t: Run)
    requires Bookkept(s) && FidsAgree(s.conn) && Ticks(hash)(s, input, trace, frame, t)
    ensures FidsAgree(t.conn)
  {
    if frame == None {
      NoFrameSent(hash, s, input, trace, t);
    } else {
      FrameSent(hash, s, input, trace, frame.value, t);
      PreparedTable(s, input, trace);
      SentFids(s, input, trace);
      SendingKeepsFids(hash, SendingOf(s, input, trace, frame.value), input, t);
    }
  }

  lemma RecordsKeepFids(fids: map<WorldId, FeatureId>, fids': map<WorldId, FeatureId>, records: seq<SentRecord>, record: SentRecord, n: nat)
    requires RecordFids(fids, records) && ListFids(fids', record.ops) && n <= |records| + 1
    requires forall w | w in fids :: w in fids' && fids'[w] == fids[w]
    ensures RecordFids(fids', (records + [record])[n..])
  {
    forall i | 0 <= i < |records|
      ensures ListFids(fids', records[i].ops)
    {
      assert ListFids(fids, records[i].ops);
    }
  }

  lemma SendingKeepsFids(hash: Hasher, g: Sending, input: BuildInput, t: Run)
    requires Sends(hash)(g, input, t) && FidsAgree(g.c) && g.p.table.Extends(g.c.table)
    requires forall w | w in g.sent :: OpFids(g.p.table.fids, g.sent[w])
    ensures FidsAgree(t.conn)
  {
    var n := SendingBooks(hash, g, input, t);
    SendingLists(hash, g, input, t);
    ListedFids(g.p.table.fids, g.ops, g.sent);
    RecordsKeepFids(g.c.table.fids, g.p.table.fids, g.c.queue.records, MakeRecord(input.snapshotId, g.ops), n);
  }

  lemma StepFids(hash: Hasher, s: Run, e: Event, t: Run)
    requires Bookkept(s) && FidsAgree(s.conn) && Steps(hash)(s, e, t)
    ensures FidsAgree(t.conn)
  {
    match e
    case Tick(input, trace, frame) => TickFids(hash, s, input, trace, frame, t);
    case Ack(k) =>
      if Outcome(s.conn, k) == Accepted {
        AckRecordsFids(s.conn.table.fids, s.conn.acked, s.conn.queue.records[..CoveredCount(s.conn.queue.records, k)]);
      }
    case Reconnect =>
    case AskKeyframe =>
  }

  /** In every run FIDs are those of the table, so no two acknowledged WIDs ever share one. */
  lemma {:induction false} FidsAreUnambiguous(hash: Hasher, states: seq<Run>, events: seq<Event>)
    requires IsRun(hash, states, events)
    ensures FidsAgree(states[|events|].conn) && DistinctFids(states[|events|].conn.acked)
  {
    RunKeeps(hash, states, events);
    if events != [] {
      var n := |events| - 1;
      FidsAreUnambiguous(hash, states[..n + 1], events[..n]);
      RunKeeps(hash, states[..n + 1], events[..n]);
      StepFids(hash, states[n], events[n], states[n + 1]);
    }
  }

  /** In every run: the acknowledgement of a frame just sent is accepted exactly if the frame did not open an
      epoch because FIDs ran out, and its record is on its own within the configured limits. An exhaustion keyframe carries the
      snapshot that is its own epoch's floor, so its acknowledgement is always refused as another epoch's. */
  lemma FreshFrameAcceptedIff(hash: Hasher, states: seq<Run>, events: seq<Event>, input: BuildInput, trace: BuildTrace,
                              frame: StateFrame, t: Run)
    requires IsRun(hash, states, events) && Ticks(hash)(states[|events|], input, trace, Some(frame), t)
    ensures Outcome(t.conn, frame.snapshotId) == Accepted
       <==> && !Exhausted(states[|events|].conn, input)
            && 1 <= input.cfg.maxUnackedFrames && |SentBy(states[|events|], input, trace)| * SENT_OP_BYTES <= input.cfg.maxUnackedBytes
    ensures Exhausted(states[|events|].conn, input) ==> Outcome(t.conn, frame.snapshotId) == EpochMismatch
  {
    var s := states[|events|];
    RunKeeps(hash, states, events);
    FrameSent(hash, s, input, trace, frame, t);
    var g := SendingOf(s, input, trace, frame);
    FreshOutcome(hash, s, g, input, t);
    RecordKeptIff(g.p, input, g.ops, g.sent, t.conn);
  }

  lemma FreshOutcome(hash: Hasher, s: Run, g: Sending, input: BuildInput, t: Run)
    requires Bookkept(s) && Sends(hash)(g, input, t) && g.latest == s.latest
    requires g.c == Opened(s.conn, input)
    ensures Outcome(t.conn, g.frame.snapshotId) ==
            if Exhausted(s.conn, input) then EpochMismatch
            else if t.conn.queue.records != [] then Accepted else UnknownSnapshot
  {
    var n := SendingBooks(hash, g, input, t);
    FreshClassified(t.conn, g.c.queue.records, MakeRecord(input.snapshotId, g.ops), n);
  }

  lemma FreshClassified(c: Conn, records: seq<SentRecord>, record: SentRecord, n: nat)
    requires n <= |records| + 1 && c.queue.records == (records + [record])[n..]
    ensures Outcome(c, record.snapshotId) ==
            if record.snapshotId <= c.floor then EpochMismatch
            else if record.snapshotId <= c.baseline then DuplicateIgnored
            else if c.queue.records != [] then Accepted else UnknownSnapshot
  {
    if c.queue.records != [] {
      assert c.queue.records[|c.queue.records| - 1] == record;
    }
  }
}
