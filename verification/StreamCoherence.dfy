/** Scanning candidates only, over whole runs: what keeps every disagreement in sight of the candidate lists. */
module StreamCoherence {
  import opened Options
  import opened StreamTypes
  import opened Connection
  import opened Acknowledge
  import opened FrameScan
  import opened FrameSpec
  import opened StreamRun
  import opened StreamHistory

  // ---- Candidate scans ----

  /** Outside the unacknowledged and the throttled WIDs, the client will end up with what the last build saw. */
  ghost predicate InSight(c: Conn, throttled: set<WorldId>, global: map<WorldId, EntityState>, visible: set<WorldId>) {
    forall w | w !in c.queue.counts && w !in throttled :: AgreesWith(c.acked, global, visible, w)
  }

  ghost predicate Coherent(s: Run) {
    s.coherent && !s.conn.schedule.needsKeyframe ==> InSight(s.conn, s.throttled, s.global, s.visible)
  }

  /** The WIDs with a count are those of the queued operations. */
  lemma CountKeys(queue: SendQueue)
    requires queue.Balanced()
    ensures forall w :: w in queue.counts <==> w in RecordOps(queue.records)
  {
    RecordWidsAreOpKeys(queue.records);
  }

  /** Without eviction, the counted WIDs grow by those of the new record. */
  lemma CommittedCounts(p: Conn, input: BuildInput, ops: seq<SentOp>, sent: Ops, c': Conn)
    requires Committed(p, input, ops, c') && p.queue.Balanced() && Lists(ops, sent) && !Evicting(p, c')
    ensures forall w :: w in c'.queue.counts <==> w in p.queue.counts || w in sent
  {
    var n := CommittedBooks(p, input, ops, c');
    var record := MakeRecord(input.snapshotId, ops);
    CountKeys(p.queue);
    CountKeys(c'.queue);
    assert (p.queue.records + [record])[..|p.queue.records|] == p.queue.records;
  }

  /** Evicting is always evicting something unacknowledged, and asks for a keyframe. */
  lemma EvictionAsksKeyframe(p: Conn, input: BuildInput, ops: seq<SentOp>, c': Conn)
    requires Committed(p, input, ops, c') && Ordered(p.queue.records, p.baseline) && p.baseline < input.snapshotId
    ensures c'.schedule.needsKeyframe <==> p.schedule.needsKeyframe || Evicting(p, c')
  {
    var records := p.queue.records + [MakeRecord(input.snapshotId, ops)];
    var n := EvictCount(records, input.cfg.maxUnackedFrames, input.cfg.maxUnackedBytes);
    if n > 0 {
      assert records[n - 1].snapshotId > p.baseline;
    }
  }

  /** Everything a delta build leaves unvisited agrees already. */
  lemma UnvisitedAgrees(s: Run, input: BuildInput, candidates: seq<WorldId>, w: WorldId)
    requires Elements(input.visible) <= input.global.Keys
    requires input.fromCache ==> SteadySince(s, input) && CandidatesOk(s.conn, input, s.throttled, candidates)
    requires input.fromCache ==> InSight(s.conn, s.throttled, s.global, s.visible)
    requires w !in (if input.fromCache then Elements(candidates) else ScanOf(s.conn, input).All())
    ensures ScanOf(s.conn, input).Agrees(w)
  {
    if input.fromCache {
      assert w !in s.conn.queue.counts && w !in s.throttled;
      assert AgreesWith(s.conn.acked, s.global, s.visible, w);
    }
  }

  /** What a delta build visits and neither sends nor throttles agrees. */
  lemma VisitedAgrees(scan: Scan, fids: map<WorldId, FeatureId>, done: set<WorldId>, w: WorldId)
    requires w in done && w !in scan.OpsFor(fids, done) && w !in scan.Held(done)
    ensures scan.Agrees(w)
  {
  }

  lemma DeltaInSight(s: Run, input: BuildInput, candidates: seq<WorldId>, c': Conn)
    requires Elements(input.visible) <= input.global.Keys
    requires input.fromCache ==> SteadySince(s, input) && CandidatesOk(s.conn, input, s.throttled, candidates)
    requires input.fromCache ==> InSight(s.conn, s.throttled, s.global, s.visible)
    requires var found := Found(s.conn, input, s.throttled, candidates);
             c'.acked == s.conn.acked && forall w | w in found.ops :: w in c'.queue.counts
    ensures InSight(c', Found(s.conn, input, s.throttled, candidates).throttled, input.global, Elements(input.visible))
  {
    var scan, found := ScanOf(s.conn, input), Found(s.conn, input, s.throttled, candidates);
    var done := if input.fromCache then Elements(candidates) else scan.All();
    forall w | w !in c'.queue.counts && w !in found.throttled
      ensures AgreesWith(c'.acked, input.global, Elements(input.visible), w)
    {
      if w in done {
        VisitedAgrees(scan, found.table.fids, done, w);
      } else {
        UnvisitedAgrees(s, input, candidates, w);
      }
      assert scan.Agrees(w);
    }
  }

  lemma KeyframeInSight(c: Conn, input: BuildInput, fids: map<WorldId, FeatureId>, c': Conn)
    requires Elements(input.visible) <= input.global.Keys && c'.acked == c.acked
    requires forall w | w in KeyframeOps(c, input, fids) :: w in c'.queue.counts
    ensures InSight(c', {}, input.global, Elements(input.visible))
  {
    forall w | w !in c'.queue.counts
      ensures w !in input.visible && w !in c.acked
    {
      assert w !in KeyframeOps(c, input, fids);
    }
  }

  lemma SendingEviction(hash: Hasher, s: Run, g: Sending, input: BuildInput, t: Run)
    requires Ordered(s.conn.queue.records, s.conn.baseline) && s.conn.baseline <= s.latest
    requires Sends(hash)(g, input, t) && g.latest == s.latest
    requires g.c == s.conn || g.c == ResetEpoch(s.conn, s.latest + 1)
    ensures t.conn.schedule.needsKeyframe <==> g.p.schedule.needsKeyframe || Evicting(g.p, t.conn)
  {
    EvictionAsksKeyframe(g.p, input, g.ops, t.conn);
  }

  lemma SendingCounts(hash: Hasher, g: Sending, input: BuildInput, t: Run)
    requires Sends(hash)(g, input, t) && g.c.queue.Balanced() && !Evicting(g.p, t.conn)
    ensures forall w :: w in t.conn.queue.counts <==> w in g.c.queue.counts || w in g.sent
  {
    CommittedCounts(g.p, input, g.ops, g.sent, t.conn);
  }

  /** The facts about a tick that the shortcuts depend on. */
  lemma SendingFacts(hash: Hasher, s: Run, g: Sending, input: BuildInput, t: Run)
    requires Bookkept(s) && Sends(hash)(g, input, t) && g.latest == s.latest
    requires g.c == s.conn || g.c == ResetEpoch(s.conn, s.latest + 1)
    ensures t.conn.acked == g.c.acked && t.conn.current == g.p.current && t.conn.dirty == []
    ensures t.conn.schedule.needsKeyframe <==> g.p.schedule.needsKeyframe || Evicting(g.p, t.conn)
    ensures !Evicting(g.p, t.conn) ==> forall w :: w in t.conn.queue.counts <==> w in g.c.queue.counts || w in g.sent
  {
    SendingEviction(hash, s, g, input, t);
    if !Evicting(g.p, t.conn) {
      EmptyBooks();
      SendingCounts(hash, g, input, t);
    }
  }

  lemma EmptyBooks()
    ensures NO_RECORDS.Balanced()
  {
    assert CountsOf(multiset{}) == map[];
  }

  lemma KeyframeTickCoherent(hash: Hasher, s: Run, input: BuildInput, trace: BuildTrace, frame: StateFrame, t: Run)
    requires Bookkept(s) && Ticks(hash)(s, input, trace, Some(frame), t) && frame.Keyframe?
    ensures Coherent(t)
  {
    FrameSent(hash, s, input, trace, frame, t);
    var g := SendingOf(s, input, trace, frame);
    SendingFacts(hash, s, g, input, t);
    if !t.conn.schedule.needsKeyframe {
      KeyframeInSight(g.c, input, g.p.table.fids, t.conn);
      assert t.throttled == {};
    }
  }

  /** The plain facts of a tick on the delta branch. */
  lemma DeltaTickFacts(hash: Hasher, s: Run, input: BuildInput, trace: BuildTrace, frame: Option<StateFrame>, t: Run)
    requires Ticks(hash)(s, input, trace, frame, t) && !BuildsKeyframe(s.conn, input)
    ensures var found := Found(s.conn, input, s.throttled, trace.candidates);
            t.throttled == found.throttled && (frame == None <==> found.ops == map[])
    ensures t.global == input.global && t.visible == Elements(input.visible) <= input.global.Keys
    ensures input.fromCache ==> SteadySince(s, input) && CandidatesOk(s.conn, input, s.throttled, trace.candidates)
    ensures t.coherent ==> (input.fromCache ==> s.coherent) && (frame.Some? ==> trace.trimmed == {})
    ensures !s.conn.schedule.needsKeyframe && input.phase < input.cfg.keyframeInterval
  {
  }

  lemma DeltaFrameCounts(hash: Hasher, s: Run, input: BuildInput, trace: BuildTrace, frame: StateFrame, t: Run)
    requires Bookkept(s) && Ticks(hash)(s, input, trace, Some(frame), t) && !BuildsKeyframe(s.conn, input)
    requires trace.trimmed == {} && !t.conn.schedule.needsKeyframe
    ensures t.conn.acked == s.conn.acked
    ensures forall w | w in Found(s.conn, input, s.throttled, trace.candidates).ops :: w in t.conn.queue.counts
  {
    FrameSent(hash, s, input, trace, frame, t);
    SendingFacts(hash, s, SendingOf(s, input, trace, frame), input, t);
  }

  lemma DeltaTickCoherent(hash: Hasher, s: Run, input: BuildInput, trace: BuildTrace, frame: Option<StateFrame>, t: Run)
    requires Bookkept(s) && Coherent(s) && Ticks(hash)(s, input, trace, frame, t) && !BuildsKeyframe(s.conn, input)
    ensures Coherent(t)
  {
    DeltaTickFacts(hash, s, input, trace, frame, t);
    if t.coherent && !t.conn.schedule.needsKeyframe {
      if frame == None {
        NoFrameSent(hash, s, input, trace, t);
      } else {
        DeltaFrameCounts(hash, s, input, trace, frame.value, t);
      }
      DeltaInSight(s, input, trace.candidates, t.conn);
    }
  }

  /** A count that an acknowledgement releases is one of a replayed operation. */
  lemma ReleasedCounts(c: Conn, snapshotId: nat, c': Conn, w: WorldId)
    requires c.queue.Balanced() && AckedTo(c, snapshotId, c') && w !in c'.queue.counts
    ensures w in c.queue.counts <==> w in RecordOps(c.queue.records[..CoveredCount(c.queue.records, snapshotId)])
  {
    var records, n := c.queue.records, CoveredCount(c.queue.records, snapshotId);
    CountKeys(c.queue);
    CountKeys(c'.queue);
    RecordOpsConcat(records[..n], records[n..]);
    assert records[..n] + records[n..] == records;
  }

  /** An acknowledgement keeps everything in sight exactly if what it releases has settled. */
  lemma AckKeepsSightIff(s: Run, snapshotId: nat, c': Conn)
    requires s.conn.queue.Balanced() && AckedTo(s.conn, snapshotId, c')
    requires InSight(s.conn, s.throttled, s.global, s.visible)
    ensures InSight(c', s.throttled, s.global, s.visible) <==> Settled(s, snapshotId, c')
  {
    var replayed := s.conn.queue.records[..CoveredCount(s.conn.queue.records, snapshotId)];
    if Settled(s, snapshotId, c') {
      forall w | w !in c'.queue.counts && w !in s.throttled
        ensures AgreesWith(c'.acked, s.global, s.visible, w)
      {
        ReleasedCounts(s.conn, snapshotId, c', w);
        AckRecordsUntouched(s.conn.acked, replayed, w);
        if w !in RecordOps(replayed) {
          assert AgreesWith(s.conn.acked, s.global, s.visible, w);
        }
      }
    }
  }

  lemma StepCoherent(hash: Hasher, s: Run, e: Event, t: Run)
    requires Bookkept(s) && Coherent(s) && Step(hash, s, e, t)
    ensures Coherent(t)
  {
    match e
    case Tick(input, trace, frame) =>
      if BuildsKeyframe(s.conn, input) {
        KeyframeTickCoherent(hash, s, input, trace, frame.value, t);
      } else {
        DeltaTickCoherent(hash, s, input, trace, frame, t);
      }
    case Ack(snapshotId) =>
      if Outcome(s.conn, snapshotId) == Accepted && t.coherent && !t.conn.schedule.needsKeyframe {
        AckKeepsSightIff(s, snapshotId, t.conn);
      }
    case Reconnect =>
    case AskKeyframe =>
  }

  lemma {:induction false} RunCoherent(hash: Hasher, states: seq<Run>, events: seq<Event>)
    requires IsRun(hash, states, events)
    ensures Bookkept(states[|events|]) && Coherent(states[|events|])
  {
    RunKeeps(hash, states, events);
    if events != [] {
      var n := |events| - 1;
      RunCoherent(hash, states[..n + 1], events[..n]);
      StepCoherent(hash, states[n], events[n], states[n + 1]);
    }
  }

  /** In every run: a delta built from the candidates of a coherent connection is the delta of the full scan,
      with the same operations, landing points, throttled WIDs and FIDs. */
  lemma CachedBuildIsFullBuild(hash: Hasher, states: seq<Run>, events: seq<Event>, input: BuildInput, trace: BuildTrace,
                               frame: Option<StateFrame>, t: Run)
    requires IsRun(hash, states, events)
    requires var s := states[|events|];
             Ticks(hash)(s, input, trace, frame, t) && input.fromCache && !BuildsKeyframe(s.conn, input) && s.coherent
    ensures var s := states[|events|];
            Found(s.conn, input, s.throttled, trace.candidates) == FullScan(ScanOf(s.conn, input), s.conn.table, input.visible)
  {
    RunCoherent(hash, states, events);
    var s := states[|events|];
    forall w | w !in trace.candidates
      ensures ScanOf(s.conn, input).Agrees(w)
    {
      UnvisitedAgrees(s, input, trace.candidates, w);
    }
    QuietOutsideCandidates(ScanOf(s.conn, input), s.conn.table, input.visible, trace.candidates);
  }
}
