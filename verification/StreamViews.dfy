/** The current view over whole runs: kept in place, and exactly when it is what the client shows. */
module StreamViews {
  import opened Options
  import opened StreamTypes
  import opened Connection
  import opened Acknowledge
  import opened FrameScan
  import opened DeltaBuild
  import opened FrameSpec
  import opened Replica
  import opened StreamRun
  import opened StreamHistory
  import opened StreamCoherence
  import opened StreamLimits

  // ---- The current view in place ----

  /** Unless a keyframe is pending, the current view is the acknowledged view outside the stale WIDs. */
  ghost predicate InPlace(c: Conn) {
    !c.schedule.needsKeyframe ==>
      forall w | w !in c.queue.counts && w !in c.dirty :: SameAt(c.current, c.acked, w)
  }

  lemma PreparedIsRebuilt(c: Conn, found: ScanResult, trimmed: set<WorldId>)
    requires InPlace(c) && !c.schedule.needsKeyframe
    ensures DeltaPrepared(c, found, trimmed).current ==
            Rebuilt(c.acked, found.landing + FallBack(c.acked, trimmed), OfKind(found.ops, Leave).Keys)
  {
    InPlaceIsRebuild(c.current, c.acked, Stale(c), found.landing + FallBack(c.acked, trimmed), OfKind(found.ops, Leave).Keys);
  }

  /** The landing points of a scan are those of its entering and updating operations. */
  ghost predicate LandsOps(found: ScanResult) {
    && (forall w :: w in found.landing <==> w in found.ops && found.ops[w].kind != Leave)
    && (forall w | w in found.landing :: found.landing[w].fid == found.ops[w].fid && found.landing[w].hash == found.ops[w].hash)
  }

  lemma ScanLandsOps(scan: Scan, table: FidTable, order: seq<WorldId>, done: set<WorldId>)
    ensures LandsOps(ScanOver(scan, table, order, done))
  {
  }

  /** The sets and tables a delta leaves behind, WID by WID. */
  lemma RebuiltAt(acked: map<WorldId, Tracked>, found: ScanResult, trimmed: set<WorldId>, w: WorldId)
    requires LandsOps(found) && trimmed <= OfKind(found.ops, Update).Keys && trimmed <= acked.Keys
    ensures var l, sent := Rebuilt(acked, found.landing + FallBack(acked, trimmed), OfKind(found.ops, Leave).Keys), found.ops - trimmed;
            if w !in sent then SameAt(l, acked, w)
            else if sent[w].kind == Leave then w !in l
            else w in l && l[w].fid == sent[w].fid && l[w].hash == sent[w].hash
  {
    assert w in OfKind(found.ops, Leave) <==> w in found.ops && found.ops[w].kind == Leave;
    assert w in trimmed ==> w in OfKind(found.ops, Update) && found.ops[w].kind == Update;
  }

  /** A table whose entries are the acknowledged ones, or those of the sent operations, is the overridden view. */
  lemma ViewByEntries(l: map<WorldId, Tracked>, acked: map<WorldId, Tracked>, sent: Ops)
    requires forall w | w !in sent :: SameAt(l, acked, w)
    requires forall w | w in sent :: w in l <==> sent[w].kind != Leave
    requires forall w | w in sent && w in l :: l[w].fid == sent[w].fid && l[w].hash == sent[w].hash
    ensures ViewOf(l) == Override(ViewOf(acked), sent)
  {
    var r := Override(ViewOf(acked), sent);
    forall w
      ensures w in l <==> w in r
      ensures w in l ==> r[w] == Entry(l[w].fid, l[w].hash)
    {
      assert w !in sent ==> SameAt(l, acked, w);
    }
    assert ViewOf(l).Keys == r.Keys;
  }

  /** The rebuilt view, seen as a view: the acknowledged one with the frame's remaining operations on top. */
  lemma RebuiltView(acked: map<WorldId, Tracked>, found: ScanResult, trimmed: set<WorldId>)
    requires LandsOps(found) && trimmed <= OfKind(found.ops, Update).Keys && trimmed <= acked.Keys
    ensures ViewOf(Rebuilt(acked, found.landing + FallBack(acked, trimmed), OfKind(found.ops, Leave).Keys)) ==
            Override(ViewOf(acked), found.ops - trimmed)
  {
    var l, sent := Rebuilt(acked, found.landing + FallBack(acked, trimmed), OfKind(found.ops, Leave).Keys), found.ops - trimmed;
    forall w
      ensures if w !in sent then SameAt(l, acked, w)
              else if sent[w].kind == Leave then w !in l
              else w in l && l[w].fid == sent[w].fid && l[w].hash == sent[w].hash
    {
      RebuiltAt(acked, found, trimmed, w);
    }
    ViewByEntries(l, acked, sent);
  }

  /** A keyframe's view is the acknowledged view with the keyframe's operations on top. */
  lemma KeyframeViewOf(c: Conn, input: BuildInput, fids: map<WorldId, FeatureId>)
    requires Elements(input.visible) <= input.global.Keys
    ensures ViewOf(KeyframeView(input, fids)) == Override(ViewOf(c.acked), KeyframeOps(c, input, fids))
  {
    var k, sent := KeyframeView(input, fids), KeyframeOps(c, input, fids);
    var r := Override(ViewOf(c.acked), sent);
    forall w
      ensures w in k <==> w in r
      ensures w in k ==> r[w] == Entry(k[w].fid, k[w].hash)
    {
      assert w in sent <==> w in input.visible || w in c.acked;
    }
    assert ViewOf(k).Keys == r.Keys;
  }

  lemma DeltaSentFacts(hash: Hasher, s: Run, input: BuildInput, trace: BuildTrace, frame: StateFrame, t: Run)
    requires Ticks(hash)(s, input, trace, Some(frame), t) && !BuildsKeyframe(s.conn, input)
    ensures var found := Found(s.conn, input, s.throttled, trace.candidates);
            LandsOps(found) && trace.trimmed <= OfKind(found.ops, Update).Keys && trace.trimmed <= s.conn.acked.Keys
    ensures !s.conn.schedule.needsKeyframe && Opened(s.conn, input) == s.conn
    ensures input.fromCache ==> CandidatesOk(s.conn, input, s.throttled, trace.candidates)
  {
    var scan := ScanOf(s.conn, input);
    ScanLandsOps(scan, s.conn.table, trace.candidates, Elements(trace.candidates));
    ScanLandsOps(scan, s.conn.table, input.visible, scan.All());
  }

  /** What a frame brings to the current view: it is rebuilt from the acknowledged view in every entry. */
  lemma SentCurrent(hash: Hasher, s: Run, input: BuildInput, trace: BuildTrace, frame: StateFrame, t: Run)
    requires Bookkept(s) && InPlace(s.conn) && Ticks(hash)(s, input, trace, Some(frame), t)
    ensures forall w | w !in SentBy(s, input, trace) :: SameAt(t.conn.current, t.conn.acked, w)
    ensures ViewOf(t.conn.current) == Override(ViewOf(t.conn.acked), SentBy(s, input, trace))
    ensures t.conn.acked == Opened(s.conn, input).acked
  {
    FrameSent(hash, s, input, trace, frame, t);
    var g := SendingOf(s, input, trace, frame);
    SendingFacts(hash, s, g, input, t);
    if frame.Keyframe? {
      KeyframeOpKeys(g.c, input, g.p.table.fids);
      KeyframeViewOf(g.c, input, g.p.table.fids);
    } else {
      DeltaSentFacts(hash, s, input, trace, frame, t);
      var found := Found(s.conn, input, s.throttled, trace.candidates);
      PreparedIsRebuilt(s.conn, found, trace.trimmed);
      RebuiltView(s.conn.acked, found, trace.trimmed);
      forall w | w !in g.sent
        ensures SameAt(t.conn.current, t.conn.acked, w)
      {
        RebuiltAt(s.conn.acked, found, trace.trimmed, w);
      }
    }
  }

  lemma TickInPlace(hash: Hasher, s: Run, input: BuildInput, trace: BuildTrace, frame: Option<StateFrame>, t: Run)
    requires Bookkept(s) && InPlace(s.conn) && Ticks(hash)(s, input, trace, frame, t)
    ensures InPlace(t.conn)
  {
    if frame == None {
      NoFrameSent(hash, s, input, trace, t);
    } else {
      FrameSent(hash, s, input, trace, frame.value, t);
      SendingFacts(hash, s, SendingOf(s, input, trace, frame.value), input, t);
      SentCurrent(hash, s, input, trace, frame.value, t);
    }
  }

  lemma AckInPlace(c: Conn, snapshotId: nat, c': Conn)
    requires c.queue.Balanced() && InPlace(c) && AckedTo(c, snapshotId, c')
    ensures InPlace(c')
  {
    var records, n := c.queue.records, CoveredCount(c.queue.records, snapshotId);
    CountKeys(c.queue);
    CountKeys(c'.queue);
    RecordOpsConcat(records[..n], records[n..]);
    assert records[..n] + records[n..] == records;
    if !c.schedule.needsKeyframe {
      forall w | w !in c'.queue.counts && w !in c'.dirty
        ensures SameAt(c'.current, c'.acked, w)
      {
        AckRecordsUntouched(c.acked, records[..n], w);
      }
    }
  }

  /** In every run: unless a keyframe is pending, the current view is the acknowledged view outside the
      unacknowledged and the dirty WIDs. */
  lemma {:induction false} RunInPlace(hash: Hasher, states: seq<Run>, events: seq<Event>)
    requires IsRun(hash, states, events)
    ensures Bookkept(states[|events|]) && InPlace(states[|events|].conn)
  {
    RunKeeps(hash, states, events);
    if events != [] {
      var n := |events| - 1;
      RunInPlace(hash, states[..n + 1], events[..n]);
      match events[n]
      case Tick(input, trace, frame) => TickInPlace(hash, states[n], input, trace, frame, states[n + 1]);
      case Ack(k) => if Outcome(states[n].conn, k) == Accepted { AckInPlace(states[n].conn, k, states[n + 1].conn); }
      case Reconnect =>
      case AskKeyframe =>
    }
  }

  /** In every run: each frame leaves the current view equal to the acknowledged view overlaid by that frame's
      operations, cut updates falling back to their acknowledged entries. */
  lemma CurrentIsAckedOverlaid(hash: Hasher, states: seq<Run>, events: seq<Event>, input: BuildInput, trace: BuildTrace,
                               frame: StateFrame, t: Run)
    requires IsRun(hash, states, events) && Ticks(hash)(states[|events|], input, trace, Some(frame), t)
    ensures ViewOf(t.conn.current) == Override(ViewOf(t.conn.acked), SentBy(states[|events|], input, trace))
    ensures forall w | w !in SentBy(states[|events|], input, trace) :: SameAt(t.conn.current, t.conn.acked, w)
  {
    RunInPlace(hash, states, events);
    SentCurrent(hash, states[|events|], input, trace, frame, t);
  }

  // ---- The promise that the current view is what the client shows after the frame ----

  /** The operation would not change what the view has for its WID. */
  predicate NoEffect(view: View, op: SentOp) {
    if op.kind == Leave then op.wid !in view else op.wid in view && view[op.wid] == Entry(op.fid, op.hash)
  }

  lemma SkippedOpsMatterIff(view: View, earlier: Ops, sent: Ops)
    requires Keyed(earlier)
    ensures Override(Override(view, earlier), sent) == Override(view, sent)
       <==> forall w | w in earlier && w !in sent :: NoEffect(view, earlier[w])
  {
    OverrideTwice(view, earlier, sent);
    var l, r := Override(view, earlier + sent), Override(view, sent);
    forall w | w in earlier && w !in sent
      ensures NoEffect(view, earlier[w]) <==> (w in l <==> w in r) && (w in l && w in r ==> l[w] == r[w])
    {
    }
    if forall w | w in earlier && w !in sent :: NoEffect(view, earlier[w]) {
      forall w
        ensures w in l <==> w in r
        ensures w in l ==> l[w] == r[w]
      {
        assert w in earlier && w !in sent ==> NoEffect(view, earlier[w]);
      }
      assert l.Keys == r.Keys;
    }
  }

  /** In every run: after a frame that pushes nothing out and whose predecessors are reproduced, the current view
      is the replica of the client that applied all frames exactly if the frame is a keyframe, or no operation is
      in flight for a WID that this frame passes over (it decides against sending, or cuts the update) although
      that operation changes what was acknowledged. */
  lemma ViewPromiseIff(hash: Hasher, states: seq<Run>, events: seq<Event>, input: BuildInput, trace: BuildTrace,
                       frame: StateFrame, t: Run)
    requires IsRun(hash, states, events) && Ticks(hash)(states[|events|], input, trace, Some(frame), t)
    requires HasRoom(Opened(states[|events|].conn, input), input.cfg, |SentBy(states[|events|], input, trace)|)
    requires HistoryHolds(states[|events|], input)
    ensures PromiseKept(hash, t) <==>
              BuildsKeyframe(states[|events|].conn, input) || NothingPassedOver(states[|events|].conn, input, trace.trimmed)
  {
    var s := states[|events|];
    RunInPlace(hash, states, events);
    RunKeeps(hash, states, events);
    StepKeeps(hash, s, Tick(input, trace, Some(frame)), t);
    SentCurrent(hash, s, input, trace, frame, t);
    FrameSent(hash, s, input, trace, frame, t);
    FrameTrusted(hash, s, input, trace, frame, t);
    PromiseOfSending(hash, SendingOf(s, input, trace, frame), input, t);
    SkipsByDecision(hash, s, input, trace, frame, t);
  }

  lemma SendingEvicts(hash: Hasher, g: Sending, input: BuildInput, t: Run)
    requires Sends(hash)(g, input, t)
    ensures Evicting(g.c, t.conn) <==> !HasRoom(g.c, input.cfg, |g.sent|)
    ensures |t.frames| == |g.frames| + 1
  {
    RoomIff(g.p, input, g.ops, g.sent, t.conn);
  }

  lemma TrustedAfter(s: Run, input: BuildInput, t: Run)
    requires |t.frames| == |if Exhausted(s.conn, input) then [] else s.frames| + 1
    requires t.trusted == NextTrusted(Opened(s.conn, input), input, t.conn, if Exhausted(s.conn, input) then {0} else s.trusted, |t.frames|)
    requires !Evicting(Opened(s.conn, input), t.conn) && HistoryHolds(s, input)
    ensures |t.frames| in t.trusted
  {
    assert BuildsKeyframe(Opened(s.conn, input), input) == BuildsKeyframe(s.conn, input);
  }

  /** With room in the queue the new frame's count is trusted. */
  lemma FrameTrusted(hash: Hasher, s: Run, input: BuildInput, trace: BuildTrace, frame: StateFrame, t: Run)
    requires Ticks(hash)(s, input, trace, Some(frame), t)
    requires HasRoom(Opened(s.conn, input), input.cfg, |SentBy(s, input, trace)|) && HistoryHolds(s, input)
    ensures !Evicting(Opened(s.conn, input), t.conn) && |t.frames| in t.trusted
  {
    FrameSent(hash, s, input, trace, frame, t);
    SendingEvicts(hash, SendingOf(s, input, trace, frame), input, t);
    TrustedAfter(s, input, t);
  }

  lemma SkipsByDecision(hash: Hasher, s: Run, input: BuildInput, trace: BuildTrace, frame: StateFrame, t: Run)
    requires s.conn.queue.Balanced() && Ticks(hash)(s, input, trace, Some(frame), t) && HistoryHolds(s, input)
    ensures NothingSkipped(Opened(s.conn, input), SentBy(s, input, trace)) <==>
              BuildsKeyframe(s.conn, input) || NothingPassedOver(s.conn, input, trace.trimmed)
  {
    if BuildsKeyframe(s.conn, input) {
      KeyframeSkipsNothing(Opened(s.conn, input), input, PreparedBy(s, input, trace).table.fids);
    } else {
      DeltaSentFacts(hash, s, input, trace, frame, t);
      DeltaPassesOver(s, input, trace);
    }
  }

  /** A keyframe is covered, and a delta follows a frame whose count is trusted. */
  ghost predicate HistoryHolds(s: Run, input: BuildInput) {
    if BuildsKeyframe(s.conn, input) then Covered(Opened(s.conn, input), input) else |s.frames| in s.trusted
  }

  /** The current view is what a client shows that has applied every frame. */
  ghost predicate PromiseKept(hash: Hasher, t: Run) {
    ViewOf(t.conn.current) == AfterFrames(hash, t.frames)
  }

  /** No WID that the delta scan passes over has an operation in flight that changes what was acknowledged. */
  ghost predicate NothingPassedOver(c: Conn, input: BuildInput, trimmed: set<WorldId>) {
    var earlier := RecordOps(c.queue.records);
    forall w | w in earlier && (w in trimmed || !ScanOf(c, input).Decide(w).Sends()) :: NoEffect(ViewOf(c.acked), earlier[w])
  }

  /** Every operation in flight that the new frame does not repeat has no effect on the acknowledged view. */
  ghost predicate NothingSkipped(c: Conn, sent: Ops) {
    var earlier := RecordOps(c.queue.records);
    forall w | w in earlier && w !in sent :: NoEffect(ViewOf(c.acked), earlier[w])
  }

  lemma KeyframeSkipsNothing(c: Conn, input: BuildInput, fids: map<WorldId, FeatureId>)
    requires Covered(c, input) && Elements(input.visible) <= input.global.Keys
    ensures NothingSkipped(c, KeyframeOps(c, input, fids))
  {
    KeyframeOpKeys(c, input, fids);
    RecordOpsKeyed(c.queue.records);
  }

  /** A WID with an operation in flight is always looked at, so it is repeated exactly if the scan decides so and
      does not cut it. */
  lemma DeltaPassesOver(s: Run, input: BuildInput, trace: BuildTrace)
    requires s.conn.queue.Balanced() && input.phase < input.cfg.keyframeInterval && !BuildsKeyframe(s.conn, input)
    requires input.fromCache ==> CandidatesOk(s.conn, input, s.throttled, trace.candidates)
    requires trace.trimmed <= Found(s.conn, input, s.throttled, trace.candidates).ops.Keys
    ensures NothingSkipped(s.conn, SentBy(s, input, trace)) <==> NothingPassedOver(s.conn, input, trace.trimmed)
  {
    var earlier, scan := RecordOps(s.conn.queue.records), ScanOf(s.conn, input);
    CountKeys(s.conn.queue);
    forall w | w in earlier
      ensures w !in SentBy(s, input, trace) <==> w in trace.trimmed || !scan.Decide(w).Sends()
    {
    }
  }

  lemma PromiseOfSending(hash: Hasher, g: Sending, input: BuildInput, t: Run)
    requires Sends(hash)(g, input, t) && !Evicting(g.c, t.conn) && ViewOf(t.conn.current) == Override(ViewOf(g.c.acked), g.sent)
    requires Reproduces(hash, t.conn, t.frames, t.trusted) && |t.frames| in t.trusted && |t.conn.queue.records| <= |t.frames|
    ensures PromiseKept(hash, t) <==> NothingSkipped(g.c, g.sent)
  {
    ClientAfterSending(hash, g, input, t);
    RecordOpsKeyed(g.c.queue.records);
    SkippedOpsMatterIff(ViewOf(g.c.acked), RecordOps(g.c.queue.records), g.sent);
  }

  lemma ClientAfterSending(hash: Hasher, g: Sending, input: BuildInput, t: Run)
    requires Sends(hash)(g, input, t) && !Evicting(g.c, t.conn)
    requires Reproduces(hash, t.conn, t.frames, t.trusted) && |t.frames| in t.trusted && |t.conn.queue.records| <= |t.frames|
    ensures AfterFrames(hash, t.frames) == Override(ViewAfter(g.c.acked, g.c.queue.records), g.sent)
  {
    var n := CommittedBooks(g.p, input, g.ops, t.conn);
    assert t.conn.queue.records == g.c.queue.records + [MakeRecord(input.snapshotId, g.ops)];
    NewestTrusted(hash, t.conn, t.frames, t.trusted);
    ViewAfterOneMore(g.c.acked, g.c.queue.records, MakeRecord(input.snapshotId, g.ops));
  }
}
