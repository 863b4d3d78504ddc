/** One connection over a whole run: ticks that build frames, acknowledgements, reconnects and keyframe
    requests, in any order and with any number of frames in flight. */
module StreamRun {
  import opened Options
  import opened StreamTypes
  import opened Connection
  import opened Acknowledge
  import opened FrameScan
  import opened DeltaBuild
  import opened FrameSpec
  import opened Replica

  /** The connection with its throttled WIDs, what the last build saw, and the frames of this epoch.
      `trusted` collects the counts of frames after which the records reproduce the client's replica;
      `coherent` tells that everything which needs sending is still in sight of the candidate lists. */
  datatype Run = Run(
    conn: Conn, throttled: set<WorldId>, latest: nat,
    visible: set<WorldId>, global: map<WorldId, EntityState>,
    frames: seq<StateFrame>, trusted: set<nat>, coherent: bool)

  /** A connection just opened, when the engine has taken `latest` snapshots. */
  function Start(latest: nat): Run {
    Run(FRESH, {}, latest, {}, map[], [], {0}, false)
  }

  datatype Event =
    | Tick(input: BuildInput, trace: BuildTrace, frame: Option<StateFrame>)
    | Ack(snapshotId: nat)
    | Reconnect
    | AskKeyframe

  /** A cache hit: the visible set is that of the last build, and only listed WIDs changed. */
  predicate SteadySince(s: Run, input: BuildInput) {
    && Elements(input.visible) == s.visible
    && forall w | w in input.visible && w !in input.changed ::
         w in input.global && w in s.global && input.global[w].hash == s.global[w].hash
  }

  /** What a client has once it applied the acknowledged frames and those of `records`. */
  ghost function ViewAfter(acked: map<WorldId, Tracked>, records: seq<SentRecord>): View {
    Override(ViewOf(acked), RecordOps(records))
  }

  /** No unacknowledged record leaves a WID entered that is neither visible nor acknowledged. */
  ghost predicate Covered(c: Conn, input: BuildInput) {
    var ops := RecordOps(c.queue.records);
    forall w | w in ops && ops[w].kind != Leave :: w in input.visible || w in c.acked
  }

  predicate BuildsKeyframe(c: Conn, input: BuildInput) {
    Forced(c, input) || PeriodicDue(c, input)
  }

  /** A build that does not lengthen the queue evicted something. */
  predicate Evicting(before: Conn, after: Conn) {
    |after.queue.records| != |before.queue.records| + 1
  }

  /** The counts to trust after a frame was sent as the `n`-th of the epoch. */
  ghost function NextTrusted(c: Conn, input: BuildInput, c': Conn, trusted: set<nat>, n: nat): set<nat>
    requires n > 0
  {
    if Evicting(c, c') then {}
    else if (if BuildsKeyframe(c, input) then Covered(c, input) else n - 1 in trusted) then trusted + {n}
    else trusted
  }

  /** What a build may take for granted of what it is given. */
  ghost predicate Given(hash: Hasher, s: Run, input: BuildInput) {
    input.Ok(hash) && Elements(input.visible) <= input.global.Keys && (input.fromCache ==> SteadySince(s, input))
  }

  /** The build, and what is kept of it. */
  ghost predicate BuildStep(hash: Hasher, s: Run, input: BuildInput, trace: BuildTrace, frame: Option<StateFrame>, t: Run)
    requires input.phase < input.cfg.keyframeInterval
  {
    var renewed := Exhausted(s.conn, input);
    var frames, trusted := if renewed then [] else s.frames, if renewed then {0} else s.trusted;
    && input.snapshotId == s.latest + 1
    && Builds(hash)(s.conn, s.throttled, input, trace, t.conn, t.throttled, frame)
    && t.latest == input.snapshotId && t.visible == Elements(input.visible) && t.global == input.global
    && (if frame == None then t.frames == frames && t.trusted == trusted
        else t.frames == frames + [frame.value]
             && t.trusted == NextTrusted(Opened(s.conn, input), input, t.conn, trusted, |t.frames|))
    && t.coherent == (BuildsKeyframe(s.conn, input)
                      || ((!input.fromCache || s.coherent) && (frame == None || trace.trimmed == {})))
  }

  ghost predicate TickStep(hash: Hasher, s: Run, input: BuildInput, trace: BuildTrace, frame: Option<StateFrame>, t: Run) {
    Given(hash, s, input) && BuildStep(hash, s, input, trace, frame, t)
  }

  /** After the acknowledgement, whatever it released is in agreement, throttled, or still unacknowledged. */
  ghost predicate Settled(s: Run, snapshotId: nat, c': Conn) {
    var replayed := s.conn.queue.records[..CoveredCount(s.conn.queue.records, snapshotId)];
    forall w | w in RecordOps(replayed) && w !in c'.queue.counts && w !in s.throttled ::
      AgreesWith(c'.acked, s.global, s.visible, w)
  }

  predicate AgreesWith(acked: map<WorldId, Tracked>, global: map<WorldId, EntityState>, visible: set<WorldId>, w: WorldId) {
    if w in visible && w in global then w in acked && acked[w].hash == global[w].hash else w in visible || w !in acked
  }

  ghost predicate Step(hash: Hasher, s: Run, e: Event, t: Run) {
    match e
    case Tick(input, trace, frame) => TickStep(hash, s, input, trace, frame, t)
    case Ack(snapshotId) =>
      if Outcome(s.conn, snapshotId) == Accepted then
        && AckedTo(s.conn, snapshotId, t.conn)
        && t == s.(conn := t.conn, coherent := s.coherent && Settled(s, snapshotId, t.conn))
      else t == s
    case Reconnect => t == s.(conn := ResetEpoch(s.conn, s.latest), frames := [], trusted := {0})
    case AskKeyframe => t == s.(conn := s.conn.(schedule := s.conn.schedule.(needsKeyframe := true)))
  }

  /** The relations between states, as values. */
  ghost function Ticks(hash: Hasher): (Run, BuildInput, BuildTrace, Option<StateFrame>, Run) -> bool {
    (s: Run, input: BuildInput, trace: BuildTrace, frame: Option<StateFrame>, t: Run) => TickStep(hash, s, input, trace, frame, t)
  }

  ghost function Steps(hash: Hasher): (Run, Event, Run) -> bool {
    (s: Run, e: Event, t: Run) => Step(hash, s, e, t)
  }

  ghost predicate IsRun(hash: Hasher, states: seq<Run>, events: seq<Event>) {
    && |states| == |events| + 1
    && states[0] == Start(states[0].latest)
    && forall i | 0 <= i < |events| :: Steps(hash)(states[i], events[i], states[i + 1])
  }

  // ---- The books ----

  ghost predicate Bookkept(s: Run) {
    && s.conn.Valid() && s.conn.baseline <= s.latest && s.conn.floor <= s.latest
    && Tail(s.conn.queue.records, s.frames, s.latest)
  }

  /** The records are those of the last frames, all up to the latest snapshot. */
  predicate Tail(records: seq<SentRecord>, frames: seq<StateFrame>, latest: nat) {
    && |records| <= |frames|
    && (forall i | 0 <= i < |records| :: records[i].snapshotId <= latest)
    && (forall i | 0 <= i < |records| :: frames[|frames| - |records| + i].snapshotId == records[i].snapshotId)
  }

  lemma TailAppends(records: seq<SentRecord>, frames: seq<StateFrame>, latest: nat, record: SentRecord, frame: StateFrame,
                    baseline: nat, n: nat)
    requires Tail(records, frames, latest) && Ordered(records, baseline) && baseline <= latest
    requires record.snapshotId == frame.snapshotId == latest + 1 && n <= |records| + 1
    ensures Tail((records + [record])[n..], frames + [frame], latest + 1)
    ensures Ordered((records + [record])[n..], baseline)
  {
  }

  /** Committing a frame appends its record and perhaps drops the oldest ones. */
  lemma CommittedBooks(c: Conn, input: BuildInput, ops: seq<SentOp>, c': Conn) returns (n: nat)
    requires Committed(c, input, ops, c')
    ensures n <= |c.queue.records| + 1
    ensures c'.queue.records == (c.queue.records + [MakeRecord(input.snapshotId, ops)])[n..]
    ensures n == 0 <==> !Evicting(c, c')
  {
    n := EvictCount(c.queue.records + [MakeRecord(input.snapshotId, ops)], input.cfg.maxUnackedFrames, input.cfg.maxUnackedBytes);
  }

  /** The connection with the frame's contents in place, before its record is queued. */
  ghost function PreparedBy(s: Run, input: BuildInput, trace: BuildTrace): Conn
    requires input.phase < input.cfg.keyframeInterval
  {
    if BuildsKeyframe(s.conn, input) then KeyframePrepared(Opened(s.conn, input), input, Forced(s.conn, input))
    else DeltaPrepared(s.conn, Found(s.conn, input, s.throttled, trace.candidates), trace.trimmed)
  }

  /** The operations of the frame that is sent. */
  ghost function SentBy(s: Run, input: BuildInput, trace: BuildTrace): Ops
    requires input.phase < input.cfg.keyframeInterval
  {
    if BuildsKeyframe(s.conn, input) then KeyframeOps(Opened(s.conn, input), input, PreparedBy(s, input, trace).table.fids)
    else Found(s.conn, input, s.throttled, trace.candidates).ops - trace.trimmed
  }

  /** What a tick that sends a frame does, whatever kind of frame it is: `c` is the connection the frame is
      built from, `p` has its contents in place, and `sent` are its operations. */
  datatype Sending = Sending(c: Conn, p: Conn, sent: Ops, ops: seq<SentOp>, frame: StateFrame, frames: seq<StateFrame>, latest: nat) {
    ghost predicate Holds(hash: Hasher, input: BuildInput, t: Run) {
      && Committed(p, input, ops, t.conn)
      && p == c.(table := p.table, current := p.current, schedule := p.schedule, dirty := [])
      && Lists(ops, sent)
      && Lists(FrameOps(hash, frame), if frame.Keyframe? then OfKind(sent, Enter) else sent)
      && frame.snapshotId == input.snapshotId == latest + 1 == t.latest
      && t.frames == frames + [frame]
    }
  }

  ghost function Sends(hash: Hasher): (Sending, BuildInput, Run) -> bool {
    (g: Sending, input: BuildInput, t: Run) => g.Holds(hash, input, t)
  }

  ghost function SendingOf(s: Run, input: BuildInput, trace: BuildTrace, frame: StateFrame): Sending
    requires input.phase < input.cfg.keyframeInterval
  {
    Sending(Opened(s.conn, input), PreparedBy(s, input, trace), SentBy(s, input, trace), trace.ops, frame,
            if Exhausted(s.conn, input) then [] else s.frames, s.latest)
  }

  lemma FrameHeld(hash: Hasher, s: Run, input: BuildInput, trace: BuildTrace, frame: StateFrame, t: Run)
    requires TickStep(hash, s, input, trace, Some(frame), t)
    ensures SendingOf(s, input, trace, frame).Holds(hash, input, t)
    ensures frame.Keyframe? == BuildsKeyframe(s.conn, input)
    ensures t.trusted == NextTrusted(Opened(s.conn, input), input, t.conn, if Exhausted(s.conn, input) then {0} else s.trusted, |t.frames|)
  {
  }

  lemma FrameSent(hash: Hasher, s: Run, input: BuildInput, trace: BuildTrace, frame: StateFrame, t: Run)
    requires Ticks(hash)(s, input, trace, Some(frame), t)
    ensures Sends(hash)(SendingOf(s, input, trace, frame), input, t)
    ensures frame.Keyframe? == BuildsKeyframe(s.conn, input)
    ensures t.trusted == NextTrusted(Opened(s.conn, input), input, t.conn, if Exhausted(s.conn, input) then {0} else s.trusted, |t.frames|)
  {
    FrameHeld(hash, s, input, trace, frame, t);
  }

  lemma NoFrameSent(hash: Hasher, s: Run, input: BuildInput, trace: BuildTrace, t: Run)
    requires Ticks(hash)(s, input, trace, None, t)
    ensures t.conn == s.conn && t.frames == s.frames && t.trusted == s.trusted && t.latest == s.latest + 1
    ensures !BuildsKeyframe(s.conn, input)
  {
  }

  /** FIDs only grow within an epoch, and only by valid additions. */
  lemma PreparedTable(s: Run, input: BuildInput, trace: BuildTrace)
    requires input.phase < input.cfg.keyframeInterval && s.conn.table.Valid()
    ensures PreparedBy(s, input, trace).table.Valid()
    ensures PreparedBy(s, input, trace).table.Extends(Opened(s.conn, input).table)
  {
    if BuildsKeyframe(s.conn, input) {
      MapFidsExtends(Opened(s.conn, input).table, input.visible, Shown(input));
    } else {
      var scan := ScanOf(s.conn, input);
      var done := if input.fromCache then Elements(trace.candidates) else scan.All();
      MapFidsExtends(s.conn.table, if input.fromCache then trace.candidates else input.visible, scan.Entering(done));
    }
  }

  /** What a sent frame leaves in the connection besides its views. */
  lemma SendingBooks(hash: Hasher, g: Sending, input: BuildInput, t: Run) returns (n: nat)
    requires Sends(hash)(g, input, t)
    ensures t.conn.table == g.p.table && t.conn.acked == g.c.acked && t.conn.floor == g.c.floor && t.conn.baseline == g.c.baseline
    ensures t.conn.queue.Balanced() && n <= |g.c.queue.records| + 1
    ensures t.conn.queue.records == (g.c.queue.records + [MakeRecord(input.snapshotId, g.ops)])[n..]
    ensures n == 0 <==> !Evicting(g.c, t.conn)
    ensures g.frame.snapshotId == input.snapshotId == g.latest + 1 == t.latest && t.frames == g.frames + [g.frame]
  {
    n := CommittedBooks(g.p, input, g.ops, t.conn);
  }

  lemma SendingLists(hash: Hasher, g: Sending, input: BuildInput, t: Run)
    requires Sends(hash)(g, input, t)
    ensures Lists(g.ops, g.sent) && Lists(FrameOps(hash, g.frame), if g.frame.Keyframe? then OfKind(g.sent, Enter) else g.sent)
  {
  }

  lemma BooksKept(s: Run, records: seq<SentRecord>, frames: seq<StateFrame>, record: SentRecord, frame: StateFrame, n: nat, t: Run)
    requires Tail(records, frames, s.latest) && Ordered(records, t.conn.baseline) && n <= |records| + 1
    requires record.snapshotId == frame.snapshotId == s.latest + 1 == t.latest
    requires t.conn.queue.records == (records + [record])[n..] && t.frames == frames + [frame]
    requires t.conn.queue.Balanced() && t.conn.table.Valid() && t.conn.baseline <= s.latest && t.conn.floor <= t.latest
    ensures Bookkept(t)
  {
    TailAppends(records, frames, s.latest, record, frame, t.conn.baseline, n);
  }

  lemma SendingKeepsBooks(hash: Hasher, s: Run, g: Sending, input: BuildInput, t: Run)
    requires Bookkept(s) && Sends(hash)(g, input, t) && g.p.table.Valid() && g.latest == s.latest
    requires (g.c == s.conn && g.frames == s.frames) || (g.c == ResetEpoch(s.conn, s.latest + 1) && g.frames == [])
    ensures Bookkept(t)
  {
    var n := SendingBooks(hash, g, input, t);
    BooksKept(s, g.c.queue.records, g.frames, MakeRecord(input.snapshotId, g.ops), g.frame, n, t);
  }

  lemma TickKeepsBooks(hash: Hasher, s: Run, input: BuildInput, trace: BuildTrace, frame: Option<StateFrame>, t: Run)
    requires Bookkept(s) && Ticks(hash)(s, input, trace, frame, t)
    ensures Bookkept(t)
  {
    if frame == None {
      NoFrameSent(hash, s, input, trace, t);
    } else {
      FrameSent(hash, s, input, trace, frame.value, t);
      PreparedTable(s, input, trace);
      SendingKeepsBooks(hash, s, SendingOf(s, input, trace, frame.value), input, t);
    }
  }
}
