/** What an acknowledgement makes of the acknowledged view: in every run it is the client's own history. */
module StreamHistory {
  import opened Options
  import opened StreamTypes
  import opened Connection
  import opened Acknowledge
  import opened FrameScan
  import opened DeltaBuild
  import opened FrameSpec
  import opened Replica
  import opened StreamRun

  /** `F` of the records and `G` of the frames agree after the first `p` frames, if the records reach back to there. */
  ghost predicate MatchesAt<R, B, V>(F: seq<R> -> V, G: seq<B> -> V, records: seq<R>, frames: seq<B>, p: nat) {
    var start := |frames| - |records|;
    p <= |frames| && (0 <= start <= p ==> F(records[..p - start]) == G(frames[..p]))
  }

  lemma OlderMatches<R, B, V>(F: seq<R> -> V, G: seq<B> -> V, records: seq<R>, frames: seq<B>, record: R, frame: B, p: nat)
    requires |records| <= |frames| && MatchesAt(F, G, records, frames, p)
    ensures MatchesAt(F, G, records + [record], frames + [frame], p)
  {
    var start := |frames| - |records|;
    if start <= p {
      assert (frames + [frame])[..p] == frames[..p] && (records + [record])[..p - start] == records[..p - start];
    }
  }

  lemma NewestMatches<R, B, V>(F: seq<R> -> V, G: seq<B> -> V, records: seq<R>, frames: seq<B>)
    requires |records| <= |frames|
    ensures MatchesAt(F, G, records, frames, |frames|) <==> F(records) == G(frames)
  {
    assert records[..|records|] == records && frames[..|frames|] == frames;
  }

  /** Moving the first `j` records out of the list and into the function. */
  lemma ShiftedMatches<R, B, V>(F: seq<R> -> V, F': seq<R> -> V, G: seq<B> -> V, records: seq<R>, frames: seq<B>, j: nat, p: nat)
    requires j <= |records| <= |frames| && MatchesAt(F, G, records, frames, p)
    requires forall rest :: F'(rest) == F(records[..j] + rest)
    ensures MatchesAt(F', G, records[j..], frames, p)
  {
    var start := |frames| - |records|;
    if start + j <= p {
      var rest := records[j..][..p - (start + j)];
      assert records[..p - start] == records[..j] + rest;
      assert F'(rest) == F(records[..j] + rest);
    }
  }

  /** Replaying the records up to the first `p` frames gives the replica of a client that applied those frames. */
  ghost predicate ReproducesAt(hash: Hasher, acked: map<WorldId, Tracked>, records: seq<SentRecord>, frames: seq<StateFrame>, p: nat) {
    MatchesAt(Replay(acked), Replicas(hash), records, frames, p)
  }

  ghost function Replay(acked: map<WorldId, Tracked>): seq<SentRecord> -> View {
    (records: seq<SentRecord>) => ViewAfter(acked, records)
  }

  ghost function Replicas(hash: Hasher): seq<StateFrame> -> View {
    (frames: seq<StateFrame>) => AfterFrames(hash, frames)
  }

  ghost predicate Reproduces(hash: Hasher, c: Conn, frames: seq<StateFrame>, trusted: set<nat>) {
    forall p | p in trusted :: ReproducesAt(hash, c.acked, c.queue.records, frames, p)
  }

  /** Operations that only enter and leave turn a view into what they enter exactly if they mention all of it. */
  lemma EntersAndLeaves(view: View, sent: Ops)
    requires forall w | w in sent :: sent[w].kind != Update
    ensures Override(view, sent) == Override(map[], OfKind(sent, Enter)) <==> view.Keys <= sent.Keys
  {
    var l, r := Override(view, sent), Override(map[], OfKind(sent, Enter));
    forall w
      ensures w in r <==> w in sent && sent[w].kind == Enter
      ensures w in l <==> w in r || (w in view && w !in sent)
      ensures w in r ==> l[w] == r[w]
    {
      assert w in OfKind(sent, Enter) <==> w in sent && sent[w].kind == Enter;
    }
    assert view.Keys <= sent.Keys ==> l.Keys == r.Keys;
  }

  lemma KeyframeOpKeys(c: Conn, input: BuildInput, fids: map<WorldId, FeatureId>)
    requires Elements(input.visible) <= input.global.Keys
    ensures KeyframeOps(c, input, fids).Keys == Elements(input.visible) + c.acked.Keys
    ensures forall w | w in KeyframeOps(c, input, fids) :: KeyframeOps(c, input, fids)[w].kind != Update
  {
  }

  /** A keyframe gives the replayed view what it gives the client exactly if it mentions all that was there. */
  lemma KeyframeHeals(view: View, c: Conn, input: BuildInput, fids: map<WorldId, FeatureId>)
    requires Elements(input.visible) <= input.global.Keys
    ensures var sent := KeyframeOps(c, input, fids);
            Override(view, sent) == Override(map[], OfKind(sent, Enter)) <==> view.Keys <= Elements(input.visible) + c.acked.Keys
  {
    KeyframeOpKeys(c, input, fids);
    EntersAndLeaves(view, KeyframeOps(c, input, fids));
  }

  lemma CoveredKeys(c: Conn, input: BuildInput)
    ensures Covered(c, input) <==> ViewAfter(c.acked, c.queue.records).Keys <= Elements(input.visible) + c.acked.Keys
  {
    var ops, v := RecordOps(c.queue.records), ViewAfter(c.acked, c.queue.records);
    forall w
      ensures (w in ops && ops[w].kind != Leave ==> w in v)
      ensures w in v && w !in c.acked ==> w in ops && ops[w].kind != Leave
    {
    }
  }

  lemma AfterOneMore(hash: Hasher, frames: seq<StateFrame>, frame: StateFrame)
    ensures AfterFrames(hash, frames + [frame]) == AfterFrame(hash, AfterFrames(hash, frames), frame)
  {
    assert (frames + [frame])[..|frames|] == frames;
  }

  lemma ViewAfterOneMore(acked: map<WorldId, Tracked>, records: seq<SentRecord>, record: SentRecord)
    ensures ViewAfter(acked, records + [record]) == Override(ViewAfter(acked, records), OpMap(record.ops))
  {
    assert (records + [record])[..|records|] == records;
    OverrideTwice(ViewOf(acked), RecordOps(records), OpMap(record.ops));
  }

  /** The newest frame is reproduced: a keyframe exactly if it was covered, a delta if the frame before it is. */
  lemma NewestFrame(hash: Hasher, c: Conn, input: BuildInput, fids: map<WorldId, FeatureId>, sent: Ops, record: SentRecord,
                    frame: StateFrame, frames: seq<StateFrame>)
    requires Elements(input.visible) <= input.global.Keys
    requires Lists(record.ops, sent) && Lists(FrameOps(hash, frame), if frame.Keyframe? then OfKind(sent, Enter) else sent)
    requires frame.Keyframe? ==> sent == KeyframeOps(c, input, fids)
    ensures var same := ViewAfter(c.acked, c.queue.records + [record]) == AfterFrames(hash, frames + [frame]);
            if frame.Keyframe? then same <==> Covered(c, input)
            else ViewAfter(c.acked, c.queue.records) == AfterFrames(hash, frames) ==> same
  {
    ViewAfterOneMore(c.acked, c.queue.records, record);
    AfterOneMore(hash, frames, frame);
    if frame.Keyframe? {
      KeyframeHeals(ViewAfter(c.acked, c.queue.records), c, input, fids);
      CoveredKeys(c, input);
    }
  }

  lemma NewestReplay(hash: Hasher, c: Conn, input: BuildInput, fids: map<WorldId, FeatureId>, sent: Ops, record: SentRecord,
                     frame: StateFrame, frames: seq<StateFrame>)
    requires Elements(input.visible) <= input.global.Keys
    requires Lists(record.ops, sent) && Lists(FrameOps(hash, frame), if frame.Keyframe? then OfKind(sent, Enter) else sent)
    requires frame.Keyframe? ==> sent == KeyframeOps(c, input, fids) && Covered(c, input)
    requires frame.Delta? ==> Replay(c.acked)(c.queue.records) == Replicas(hash)(frames)
    ensures Replay(c.acked)(c.queue.records + [record]) == Replicas(hash)(frames + [frame])
  {
    NewestFrame(hash, c, input, fids, sent, record, frame, frames);
  }

  lemma AppendMatches<R, B, V>(F: seq<R> -> V, G: seq<B> -> V, records: seq<R>, frames: seq<B>, record: R, frame: B, p: nat)
    requires |records| <= |frames|
    requires MatchesAt(F, G, records, frames, p) || (p == |frames| + 1 && F(records + [record]) == G(frames + [frame]))
    ensures MatchesAt(F, G, records + [record], frames + [frame], p)
  {
    if MatchesAt(F, G, records, frames, p) {
      OlderMatches(F, G, records, frames, record, frame, p);
    } else {
      NewestMatches(F, G, records + [record], frames + [frame]);
    }
  }

  lemma NewestTrusted(hash: Hasher, c: Conn, frames: seq<StateFrame>, trusted: set<nat>)
    requires |c.queue.records| <= |frames| && Reproduces(hash, c, frames, trusted) && |frames| in trusted
    ensures Replay(c.acked)(c.queue.records) == Replicas(hash)(frames)
  {
    assert ReproducesAt(hash, c.acked, c.queue.records, frames, |frames|);
    NewestMatches(Replay(c.acked), Replicas(hash), c.queue.records, frames);
  }

  lemma NextTrustedMembers(c: Conn, input: BuildInput, c': Conn, trusted: set<nat>, n: nat)
    requires n > 0
    ensures Evicting(c, c') ==> NextTrusted(c, input, c', trusted, n) == {}
    ensures forall p | p in NextTrusted(c, input, c', trusted, n) ::
              p in trusted || (p == n && if BuildsKeyframe(c, input) then Covered(c, input) else n - 1 in trusted)
  {
  }

  /** One count to trust after a frame was appended. */
  lemma NextReproduces(hash: Hasher, c: Conn, input: BuildInput, fids: map<WorldId, FeatureId>, sent: Ops, record: SentRecord,
                       frame: StateFrame, frames: seq<StateFrame>, trusted: set<nat>, p: nat)
    requires Elements(input.visible) <= input.global.Keys
    requires Lists(record.ops, sent) && Lists(FrameOps(hash, frame), if frame.Keyframe? then OfKind(sent, Enter) else sent)
    requires frame.Keyframe? ==> sent == KeyframeOps(c, input, fids)
    requires |c.queue.records| <= |frames| && Reproduces(hash, c, frames, trusted)
    requires p in trusted || (p == |frames| + 1 && if frame.Keyframe? then Covered(c, input) else |frames| in trusted)
    ensures ReproducesAt(hash, c.acked, c.queue.records + [record], frames + [frame], p)
  {
    if p in trusted {
      assert ReproducesAt(hash, c.acked, c.queue.records, frames, p);
    } else {
      if frame.Delta? { NewestTrusted(hash, c, frames, trusted); }
      NewestReplay(hash, c, input, fids, sent, record, frame, frames);
    }
    AppendMatches(Replay(c.acked), Replicas(hash), c.queue.records, frames, record, frame, p);
  }

  lemma SendingReproduces(hash: Hasher, g: Sending, input: BuildInput, trusted: set<nat>, t: Run)
    requires Sends(hash)(g, input, t) && Elements(input.visible) <= input.global.Keys
    requires g.frame.Keyframe? ==> g.sent == KeyframeOps(g.c, input, g.p.table.fids)
    requires |g.c.queue.records| <= |g.frames| && Reproduces(hash, g.c, g.frames, trusted)
    requires Evicting(g.c, t.conn) ==> t.trusted == {}
    requires forall p | p in t.trusted ::
               p in trusted || (p == |t.frames| && if g.frame.Keyframe? then Covered(g.c, input) else |t.frames| - 1 in trusted)
    ensures Reproduces(hash, t.conn, t.frames, t.trusted)
  {
    var n := SendingBooks(hash, g, input, t);
    SendingLists(hash, g, input, t);
    var record := MakeRecord(input.snapshotId, g.ops);
    forall p | p in t.trusted
      ensures ReproducesAt(hash, t.conn.acked, t.conn.queue.records, t.frames, p)
    {
      assert t.conn.queue.records == g.c.queue.records + [record];
      NextReproduces(hash, g.c, input, g.p.table.fids, g.sent, record, g.frame, g.frames, trusted, p);
    }
  }

  lemma ResetReproduces(hash: Hasher, c: Conn, floor: nat)
    ensures Reproduces(hash, ResetEpoch(c, floor), [], {0})
  {
    assert ViewAfter(map[], []) == map[];
  }

  lemma TickReproduces(hash: Hasher, s: Run, input: BuildInput, trace: BuildTrace, frame: Option<StateFrame>, t: Run)
    requires Bookkept(s) && Reproduces(hash, s.conn, s.frames, s.trusted)
    requires Ticks(hash)(s, input, trace, frame, t)
    ensures Reproduces(hash, t.conn, t.frames, t.trusted)
  {
    if frame == None {
      NoFrameSent(hash, s, input, trace, t);
    } else {
      FrameSent(hash, s, input, trace, frame.value, t);
      ResetReproduces(hash, s.conn, input.snapshotId);
      var trusted := if Exhausted(s.conn, input) then {0} else s.trusted;
      NextTrustedMembers(Opened(s.conn, input), input, t.conn, trusted, |t.frames|);
      SendingReproduces(hash, SendingOf(s, input, trace, frame.value), input, trusted, t);
    }
  }

  /** An acknowledgement moves the replayed records from the queue into the acknowledged view. */
  lemma AckedViewAfter(acked: map<WorldId, Tracked>, replayed: seq<SentRecord>, rest: seq<SentRecord>)
    ensures ViewAfter(AckRecords(acked, replayed), rest) == ViewAfter(acked, replayed + rest)
  {
    AckRecordsView(acked, replayed);
    RecordOpsConcat(replayed, rest);
    OverrideTwice(ViewOf(acked), RecordOps(replayed), RecordOps(rest));
  }

  lemma AckReproduces(hash: Hasher, c: Conn, snapshotId: nat, c': Conn, frames: seq<StateFrame>, trusted: set<nat>)
    requires |c.queue.records| <= |frames| && Reproduces(hash, c, frames, trusted) && AckedTo(c, snapshotId, c')
    ensures Reproduces(hash, c', frames, trusted)
  {
    var records, j := c.queue.records, CoveredCount(c.queue.records, snapshotId);
    forall rest
      ensures Replay(c'.acked)(rest) == Replay(c.acked)(records[..j] + rest)
    {
      AckedViewAfter(c.acked, records[..j], rest);
    }
    forall p | p in trusted
      ensures ReproducesAt(hash, c'.acked, c'.queue.records, frames, p)
    {
      ShiftedMatches(Replay(c.acked), Replay(c'.acked), Replicas(hash), records, frames, j, p);
    }
  }

  // ---- Whole runs ----

  lemma StepKeeps(hash: Hasher, s: Run, e: Event, t: Run)
    requires Bookkept(s) && Reproduces(hash, s.conn, s.frames, s.trusted) && Step(hash, s, e, t)
    ensures Bookkept(t) && Reproduces(hash, t.conn, t.frames, t.trusted)
  {
    match e
    case Tick(input, trace, frame) =>
      TickKeepsBooks(hash, s, input, trace, frame, t);
      TickReproduces(hash, s, input, trace, frame, t);
    case Ack(snapshotId) =>
      if Outcome(s.conn, snapshotId) == Accepted {
        AckKeepsBooks(s, snapshotId, t);
        AckReproduces(hash, s.conn, snapshotId, t.conn, s.frames, s.trusted);
      }
    case Reconnect =>
      ResetReproduces(hash, s.conn, s.latest);
    case AskKeyframe =>
  }

  /** The records an accepted acknowledgement covers end with the acknowledged one. */
  lemma CoveredEndsAt(records: seq<SentRecord>, baseline: nat, k: nat)
    requires Ordered(records, baseline)
    requires exists i :: 0 <= i < |records| && records[i].snapshotId == k
    ensures var n := CoveredCount(records, k); 0 < n && records[n - 1].snapshotId == k
  {
    var n := CoveredCount(records, k);
    var i :| 0 <= i < |records| && records[i].snapshotId == k;
    forall j | n <= j < |records|
      ensures records[j].snapshotId > k
    {
      assert j == n || records[n].snapshotId < records[j].snapshotId;
    }
    assert i < n;
  }

  lemma OrderedDrops(records: seq<SentRecord>, baseline: nat, n: nat, k: nat)
    requires Ordered(records, baseline) && 0 < n <= |records| && records[n - 1].snapshotId == k
    ensures Ordered(records[n..], k)
  {
  }

  lemma TailDrops(records: seq<SentRecord>, frames: seq<StateFrame>, latest: nat, n: nat)
    requires Tail(records, frames, latest) && 0 < n <= |records|
    ensures Tail(records[n..], frames, latest) && records[n - 1].snapshotId <= latest
  {
  }

  lemma AckKeepsBooks(s: Run, snapshotId: nat, t: Run)
    requires Bookkept(s) && Outcome(s.conn, snapshotId) == Accepted && AckedTo(s.conn, snapshotId, t.conn)
    requires t.frames == s.frames && t.latest == s.latest
    ensures Bookkept(t)
  {
    var records, n := s.conn.queue.records, CoveredCount(s.conn.queue.records, snapshotId);
    CoveredEndsAt(records, s.conn.baseline, snapshotId);
    OrderedDrops(records, s.conn.baseline, n, snapshotId);
    TailDrops(records, s.frames, s.latest, n);
  }

  lemma {:induction false} RunKeeps(hash: Hasher, states: seq<Run>, events: seq<Event>)
    requires IsRun(hash, states, events)
    ensures var s := states[|events|]; Bookkept(s) && Reproduces(hash, s.conn, s.frames, s.trusted)
  {
    if events == [] {
      assert RecordWids([]) == multiset{};
      assert CountsOf(multiset{}) == map[];
      ResetReproduces(hash, FRESH, 0);
    } else {
      var n := |events| - 1;
      RunKeeps(hash, states[..n + 1], events[..n]);
      StepKeeps(hash, states[n], events[n], states[n + 1]);
    }
  }

  /** In every run: when the acknowledgement of snapshot `k` is accepted, `k` was the snapshot of some frame of
      this epoch, and if the count of frames up to it is trusted, the acknowledged view becomes exactly the
      replica the client had right after that frame, however many frames are in flight. */
  lemma AckedViewIsClientHistory(hash: Hasher, states: seq<Run>, events: seq<Event>, k: nat, c': Conn) returns (p: nat)
    requires IsRun(hash, states, events)
    requires Outcome(states[|events|].conn, k) == Accepted && AckedTo(states[|events|].conn, k, c')
    ensures var s := states[|events|];
            p < |s.frames| && s.frames[p].snapshotId == k
            && (p + 1 in s.trusted ==> ViewOf(c'.acked) == AfterFrames(hash, s.frames[..p + 1]))
  {
    RunKeeps(hash, states, events);
    p := AckedHistory(hash, states[|events|], k);
  }

  lemma AckedHistory(hash: Hasher, s: Run, k: nat) returns (p: nat)
    requires Bookkept(s) && Reproduces(hash, s.conn, s.frames, s.trusted) && Outcome(s.conn, k) == Accepted
    ensures p < |s.frames| && s.frames[p].snapshotId == k
    ensures p + 1 in s.trusted ==>
              ViewOf(AckRecords(s.conn.acked, s.conn.queue.records[..CoveredCount(s.conn.queue.records, k)])) ==
              AfterFrames(hash, s.frames[..p + 1])
  {
    var c := s.conn;
    p := AckedFrame(c.queue.records, s.frames, s.latest, c.baseline, k);
    if p + 1 in s.trusted {
      assert ReproducesAt(hash, c.acked, c.queue.records, s.frames, p + 1);
      HistoryAt(hash, c.acked, c.queue.records, s.frames, p + 1, k);
    }
  }

  /** The frame of the last record that an acknowledgement covers. */
  lemma AckedFrame(records: seq<SentRecord>, frames: seq<StateFrame>, latest: nat, baseline: nat, k: nat) returns (p: nat)
    requires Ordered(records, baseline) && Tail(records, frames, latest)
    requires exists i :: 0 <= i < |records| && records[i].snapshotId == k
    ensures p < |frames| && frames[p].snapshotId == k && p + 1 == |frames| - |records| + CoveredCount(records, k)
  {
    CoveredEndsAt(records, baseline, k);
    p := |frames| - |records| + CoveredCount(records, k) - 1;
  }

  lemma HistoryAt(hash: Hasher, acked: map<WorldId, Tracked>, records: seq<SentRecord>, frames: seq<StateFrame>, p: nat, k: nat)
    requires ReproducesAt(hash, acked, records, frames, p) && |records| <= |frames|
    requires p == |frames| - |records| + CoveredCount(records, k)
    ensures ViewOf(AckRecords(acked, records[..CoveredCount(records, k)])) == AfterFrames(hash, frames[..p])
  {
    var n := CoveredCount(records, k);
    AckRecordsView(acked, records[..n]);
    ReplayedMatch(hash, acked, records, frames, p, n);
  }

  lemma ReplayedMatch(hash: Hasher, acked: map<WorldId, Tracked>, records: seq<SentRecord>, frames: seq<StateFrame>, p: nat, n: nat)
    requires ReproducesAt(hash, acked, records, frames, p) && |records| <= |frames| && n <= |records|
    requires p == |frames| - |records| + n
    ensures ViewAfter(acked, records[..n]) == AfterFrames(hash, frames[..p])
  {
    MatchValue(Replay(acked), Replicas(hash), records, frames, p, n);
  }

  /** Nothing is evicted and every keyframe is covered. */
  ghost predicate Calm(s: Run, e: Event, t: Run) {
    e.Tick? && e.frame.Some? ==>
      var c := Opened(s.conn, e.input);
      !Evicting(c, t.conn) && (BuildsKeyframe(s.conn, e.input) ==> Covered(c, e.input))
  }

  /** In a calm run every count of frames is trusted, so every accepted acknowledgement reproduces the client. */
  lemma {:induction false} CalmRunsTrustEveryFrame(hash: Hasher, states: seq<Run>, events: seq<Event>)
    requires IsRun(hash, states, events)
    requires forall i | 0 <= i < |events| :: Calm(states[i], events[i], states[i + 1])
    ensures var s := states[|events|]; forall p: nat | p <= |s.frames| :: p in s.trusted
  {
    if events != [] {
      var n := |events| - 1;
      CalmRunsTrustEveryFrame(hash, states[..n + 1], events[..n]);
      CalmStepTrusts(hash, states[n], events[n], states[n + 1]);
    }
  }

  lemma CalmStepTrusts(hash: Hasher, s: Run, e: Event, t: Run)
    requires Step(hash, s, e, t) && Calm(s, e, t) && forall p: nat | p <= |s.frames| :: p in s.trusted
    ensures forall p: nat | p <= |t.frames| :: p in t.trusted
  {
    if e.Tick? && e.frame.Some? {
      FrameSent(hash, s, e.input, e.trace, e.frame.value, t);
      CalmNext(Opened(s.conn, e.input), e.input, t.conn, if Exhausted(s.conn, e.input) then {0} else s.trusted, |t.frames|);
    }
  }

  lemma CalmNext(c: Conn, input: BuildInput, c': Conn, trusted: set<nat>, n: nat)
    requires n > 0 && !Evicting(c, c') && (BuildsKeyframe(c, input) ==> Covered(c, input))
    requires forall p: nat | p < n :: p in trusted
    ensures forall p: nat | p <= n :: p in NextTrusted(c, input, c', trusted, n)
  {
    var next := NextTrusted(c, input, c', trusted, n);
    assert n in next;
    assert trusted <= next;
  }

  lemma MatchValue<R, B, V>(F: seq<R> -> V, G: seq<B> -> V, records: seq<R>, frames: seq<B>, p: nat, n: nat)
    requires MatchesAt(F, G, records, frames, p) && |records| <= |frames| && n <= |records|
    requires p == |frames| - |records| + n
    ensures F(records[..n]) == G(frames[..p])
  {
  }
}
