/** Lockstep runs: no frame is built while one is unacknowledged. Everything then agrees after every
    acknowledgement, and candidate scans never miss anything. */
module StreamLockstep {
  import opened Options
  import opened StreamTypes
  import opened Connection
  import opened Acknowledge
  import opened FrameScan
  import opened FrameSpec
  import opened Replica
  import opened StreamRun
  import opened StreamHistory
  import opened StreamCoherence
  import opened StreamViews

  ghost predicate Lockstep(states: seq<Run>, events: seq<Event>)
    requires |states| == |events| + 1
  {
    forall i | 0 <= i < |events| && events[i].Tick? :: states[i].conn.queue.records == []
  }

  /** No delta frame was cut down to its update quota. */
  ghost predicate Untrimmed(events: seq<Event>) {
    forall i | 0 <= i < |events| && events[i].Tick? && events[i].frame.Some? && events[i].frame.value.Delta? ::
      events[i].trace.trimmed == {}
  }

  /** With a frame in flight or no keyframe pending, the client that applied everything is known, and it
      shows the current view. */
  ghost predicate InStep(s: Run) {
    && |s.conn.queue.records| <= 1
    && (s.conn.queue.records != [] || !s.conn.schedule.needsKeyframe ==>
          |s.frames| in s.trusted && ViewOf(s.conn.current) == ViewAfter(s.conn.acked, s.conn.queue.records))
  }

  lemma OneRecord(records: seq<SentRecord>, record: SentRecord, n: nat)
    requires records == [] && n <= 1
    ensures (records + [record])[n..] == if n == 0 then [record] else []
    ensures RecordOps((records + [record])[n..]) == if n == 0 then OpMap(record.ops) else map[]
  {
    assert [record][..0] == [];
  }

  /** A frame sent with nothing in flight leaves its own record or, if evicted, none. */
  lemma OnlyRecord(hash: Hasher, g: Sending, input: BuildInput, t: Run)
    requires Sends(hash)(g, input, t) && g.c.queue.records == []
    ensures |t.conn.queue.records| <= 1
    ensures Evicting(g.c, t.conn) ==> t.conn.queue.records == []
    ensures RecordOps(t.conn.queue.records) == if Evicting(g.c, t.conn) then map[] else g.sent
  {
    var n := SendingBooks(hash, g, input, t);
    OneRecord(g.c.queue.records, MakeRecord(input.snapshotId, g.ops), n);
    assert n == 0 <==> |t.conn.queue.records| == 1;
  }

  lemma SentInStep(hash: Hasher, g: Sending, input: BuildInput, t: Run)
    requires Sends(hash)(g, input, t) && g.c.queue.records == [] && t.conn.acked == g.c.acked
    requires ViewOf(t.conn.current) == Override(ViewOf(g.c.acked), g.sent)
    requires if Evicting(g.c, t.conn) then t.conn.schedule.needsKeyframe else |t.frames| in t.trusted
    ensures InStep(t)
  {
    OnlyRecord(hash, g, input, t);
  }

  lemma EmptyHistoryHolds(s: Run, input: BuildInput)
    requires InStep(s) && s.conn.queue.records == []
    ensures HistoryHolds(s, input)
  {
    assert RecordOps(Opened(s.conn, input).queue.records) == map[];
  }

  /** The newest count is trusted unless the frame's own record was evicted. */
  lemma TickTrustsNewest(hash: Hasher, s: Run, input: BuildInput, trace: BuildTrace, frame: StateFrame, t: Run)
    requires InStep(s) && s.conn.queue.records == [] && Ticks(hash)(s, input, trace, Some(frame), t)
    ensures !Evicting(Opened(s.conn, input), t.conn) ==> |t.frames| in t.trusted
  {
    FrameSent(hash, s, input, trace, frame, t);
    SendingEvicts(hash, SendingOf(s, input, trace, frame), input, t);
    EmptyHistoryHolds(s, input);
    if !Evicting(Opened(s.conn, input), t.conn) {
      TrustedAfter(s, input, t);
    }
  }

  /** All that `SentInStep` asks of a frame. */
  lemma FrameFacts(hash: Hasher, s: Run, input: BuildInput, trace: BuildTrace, frame: StateFrame, t: Run) returns (g: Sending)
    requires Bookkept(s) && InPlace(s.conn) && Ticks(hash)(s, input, trace, Some(frame), t)
    ensures Sends(hash)(g, input, t) && g.c == Opened(s.conn, input) && t.conn.acked == g.c.acked
    ensures ViewOf(t.conn.current) == Override(ViewOf(g.c.acked), g.sent)
    ensures Evicting(g.c, t.conn) ==> t.conn.schedule.needsKeyframe
  {
    FrameSent(hash, s, input, trace, frame, t);
    SentCurrent(hash, s, input, trace, frame, t);
    g := SendingOf(s, input, trace, frame);
    SendingFacts(hash, s, g, input, t);
  }

  lemma FrameInStep(hash: Hasher, s: Run, input: BuildInput, trace: BuildTrace, frame: StateFrame, t: Run)
    requires Bookkept(s) && InPlace(s.conn) && InStep(s) && s.conn.queue.records == []
    requires Ticks(hash)(s, input, trace, Some(frame), t)
    ensures InStep(t)
  {
    var g := FrameFacts(hash, s, input, trace, frame, t);
    TickTrustsNewest(hash, s, input, trace, frame, t);
    SentInStep(hash, g, input, t);
  }

  lemma TickInStep(hash: Hasher, s: Run, input: BuildInput, trace: BuildTrace, frame: Option<StateFrame>, t: Run)
    requires Bookkept(s) && InPlace(s.conn) && InStep(s) && s.conn.queue.records == []
    requires Ticks(hash)(s, input, trace, frame, t)
    ensures InStep(t)
  {
    if frame == None {
      NoFrameSent(hash, s, input, trace, t);
    } else {
      FrameInStep(hash, s, input, trace, frame.value, t);
    }
  }

  /** An accepted acknowledgement of the only record takes it all in. */
  lemma AckTakesAll(c: Conn, snapshotId: nat, c': Conn)
    requires c.Valid() && |c.queue.records| <= 1 && Outcome(c, snapshotId) == Accepted && AckedTo(c, snapshotId, c')
    ensures |c.queue.records| == 1 && CoveredCount(c.queue.records, snapshotId) == 1
    ensures c'.queue.records == [] && c'.queue.counts == map[]
    ensures ViewOf(c'.acked) == ViewAfter(c.acked, c.queue.records)
  {
    CoveredEndsAt(c.queue.records, c.baseline, snapshotId);
    assert c.queue.records[..1] == c.queue.records;
    AckRecordsView(c.acked, c.queue.records);
    assert CountsOf(RecordWids([])) == map[];
  }

  lemma AckInStep(s: Run, snapshotId: nat, t: Run)
    requires s.conn.Valid() && InStep(s) && Outcome(s.conn, snapshotId) == Accepted && AckedTo(s.conn, snapshotId, t.conn)
    requires t.frames == s.frames && t.trusted == s.trusted
    ensures InStep(t)
  {
    AckTakesAll(s.conn, snapshotId, t.conn);
    NothingReplayed(t.conn.acked);
  }

  lemma NothingReplayed(acked: map<WorldId, Tracked>)
    ensures ViewAfter(acked, []) == ViewOf(acked)
  {
  }

  lemma StepInStep(hash: Hasher, s: Run, e: Event, t: Run)
    requires Bookkept(s) && InPlace(s.conn) && InStep(s) && (e.Tick? ==> s.conn.queue.records == []) && Steps(hash)(s, e, t)
    ensures InStep(t)
  {
    match e
    case Tick(input, trace, frame) => TickInStep(hash, s, input, trace, frame, t);
    case Ack(k) => if Outcome(s.conn, k) == Accepted { AckInStep(s, k, t); }
    case Reconnect =>
    case AskKeyframe =>
  }

  lemma {:induction false} RunInStep(hash: Hasher, states: seq<Run>, events: seq<Event>)
    requires IsRun(hash, states, events) && Lockstep(states, events)
    ensures InStep(states[|events|])
  {
    if events == [] {
    } else {
      var n := |events| - 1;
      RunInStep(hash, states[..n + 1], events[..n]);
      RunInPlace(hash, states[..n + 1], events[..n]);
      StepInStep(hash, states[n], events[n], states[n + 1]);
    }
  }

  /** In every lockstep run: when an acknowledgement is accepted, the acknowledged view, the current view and
      the replica of the client that applied every frame are the same. */
  lemma LockstepViewsAgree(hash: Hasher, states: seq<Run>, events: seq<Event>, snapshotId: nat, c': Conn)
    requires IsRun(hash, states, events) && Lockstep(states, events)
    requires var s := states[|events|]; Outcome(s.conn, snapshotId) == Accepted && AckedTo(s.conn, snapshotId, c')
    ensures ViewOf(c'.acked) == ViewOf(c'.current) == AfterFrames(hash, states[|events|].frames)
    ensures c'.queue.records == []
  {
    var s := states[|events|];
    RunKeeps(hash, states, events);
    RunInStep(hash, states, events);
    AckTakesAll(s.conn, snapshotId, c');
    NewestTrusted(hash, s.conn, s.frames, s.trusted);
  }

  // ---- Candidate scans in lockstep ----

  /** The records in flight say what the last build saw. */
  ghost predicate Reflects(s: Run) {
    var ops := RecordOps(s.conn.queue.records);
    forall w | w in ops :: Tells(s.global, s.visible, w, ops[w])
  }

  predicate Tells(global: map<WorldId, EntityState>, visible: set<WorldId>, w: WorldId, op: SentOp) {
    if op.kind == Leave then w !in visible else w in visible && w in global && op.hash == global[w].hash
  }

  lemma ScanTells(scan: Scan, fids: map<WorldId, FeatureId>, done: set<WorldId>)
    ensures forall w | w in scan.OpsFor(fids, done) :: Tells(scan.global, scan.visible, w, scan.OpsFor(fids, done)[w])
  {
    forall w | w in scan.OpsFor(fids, done)
      ensures Tells(scan.global, scan.visible, w, scan.OpsFor(fids, done)[w])
    {
      assert scan.OpsFor(fids, done)[w] == scan.OpFor(fids, w);
    }
  }

  lemma SentTells(s: Run, input: BuildInput, trace: BuildTrace)
    requires input.phase < input.cfg.keyframeInterval && Elements(input.visible) <= input.global.Keys
    ensures forall w | w in SentBy(s, input, trace) ::
              Tells(input.global, Elements(input.visible), w, SentBy(s, input, trace)[w])
  {
    if BuildsKeyframe(s.conn, input) {
      KeyframeOpKeys(Opened(s.conn, input), input, PreparedBy(s, input, trace).table.fids);
    } else {
      var scan, found := ScanOf(s.conn, input), Found(s.conn, input, s.throttled, trace.candidates);
      ScanTells(scan, found.table.fids, Elements(trace.candidates));
      ScanTells(scan, found.table.fids, scan.All());
    }
  }

  lemma TickReflects(hash: Hasher, s: Run, input: BuildInput, trace: BuildTrace, frame: Option<StateFrame>, t: Run)
    requires s.conn.queue.records == [] && Ticks(hash)(s, input, trace, frame, t)
    ensures Reflects(t)
  {
    if frame == None {
      NoFrameSent(hash, s, input, trace, t);
    } else {
      FrameSent(hash, s, input, trace, frame.value, t);
      var g := SendingOf(s, input, trace, frame.value);
      OnlyRecord(hash, g, input, t);
      SentTells(s, input, trace);
    }
  }

  lemma AckSettles(s: Run, snapshotId: nat, c': Conn)
    requires s.conn.Valid() && |s.conn.queue.records| <= 1 && Reflects(s)
    requires Outcome(s.conn, snapshotId) == Accepted && AckedTo(s.conn, snapshotId, c')
    ensures Settled(s, snapshotId, c')
  {
    AckTakesAll(s.conn, snapshotId, c');
    var records := s.conn.queue.records;
    assert records[..1] == records;
    forall w | w in RecordOps(records)
      ensures AgreesWith(c'.acked, s.global, s.visible, w)
    {
      var ops := RecordOps(records);
      assert Tells(s.global, s.visible, w, ops[w]);
      assert w in ViewOf(c'.acked) <==> ops[w].kind != Leave;
      assert w in c'.acked ==> ViewOf(c'.acked)[w] == Entry(ops[w].fid, ops[w].hash);
    }
  }

  lemma {:induction false} RunStaysCoherent(hash: Hasher, states: seq<Run>, events: seq<Event>)
    requires IsRun(hash, states, events) && Lockstep(states, events) && Untrimmed(events)
    ensures var s := states[|events|]; Reflects(s) && (s.coherent || s.conn.schedule.needsKeyframe)
  {
    if events == [] {
    } else {
      var n := |events| - 1;
      RunStaysCoherent(hash, states[..n + 1], events[..n]);
      RunInStep(hash, states[..n + 1], events[..n]);
      RunKeeps(hash, states[..n + 1], events[..n]);
      var s, t := states[n], states[n + 1];
      match events[n]
      case Tick(input, trace, frame) =>
        TickReflects(hash, s, input, trace, frame, t);
        TickStaysCoherent(hash, s, input, trace, frame, t);
      case Ack(k) =>
        if Outcome(s.conn, k) == Accepted {
          AckTakesAll(s.conn, k, t.conn);
          AckSettles(s, k, t.conn);
        }
      case Reconnect =>
      case AskKeyframe =>
    }
  }

  lemma TickStaysCoherent(hash: Hasher, s: Run, input: BuildInput, trace: BuildTrace, frame: Option<StateFrame>, t: Run)
    requires s.coherent || s.conn.schedule.needsKeyframe
    requires frame.Some? && frame.value.Delta? ==> trace.trimmed == {}
    requires Ticks(hash)(s, input, trace, frame, t)
    ensures t.coherent
  {
  }

  /** In every lockstep run without cut updates: a delta built from the candidates is the delta of the full scan. */
  lemma LockstepCachedBuildIsFullBuild(hash: Hasher, states: seq<Run>, events: seq<Event>, input: BuildInput,
                                       trace: BuildTrace, frame: Option<StateFrame>, t: Run)
    requires IsRun(hash, states, events) && Lockstep(states, events) && Untrimmed(events)
    requires var s := states[|events|];
             Ticks(hash)(s, input, trace, frame, t) && input.fromCache && !BuildsKeyframe(s.conn, input)
    ensures var s := states[|events|];
            Found(s.conn, input, s.throttled, trace.candidates) == FullScan(ScanOf(s.conn, input), s.conn.table, input.visible)
  {
    RunStaysCoherent(hash, states, events);
    CachedBuildIsFullBuild(hash, states, events, input, trace, frame, t);
  }
}
