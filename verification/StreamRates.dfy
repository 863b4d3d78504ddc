/** How often an entity is sent: what the builder remembers of the last time, and exactly when an update is withheld. */
module StreamRates {
  import opened Integers
  import opened Options
  import opened StreamTypes
  import opened Connection
  import opened Acknowledge
  import opened FrameScan
  import opened DeltaBuild
  import opened FrameSpec
  import opened Replica
  import opened StreamRun
  import opened StreamCoherence
  import opened StreamViews

  /** The last frame of the epoch: its tick, and the entities it carried. */
  datatype Sent = Sent(tick: nat, carried: set<WorldId>)

  function Carried(hash: Hasher, frame: StateFrame): set<WorldId> {
    set op | op in FrameOps(hash, frame) && op.kind != Leave :: op.wid
  }

  function NextSent(hash: Hasher, last: Option<Sent>, e: Event): Option<Sent> {
    match e
    case Tick(input, _, frame) => if frame == None then last else Some(Sent(input.tick, Carried(hash, frame.value)))
    case Ack(_) => last
    case Reconnect => None
    case AskKeyframe => last
  }

  /** The last frame before event `i`. */
  function SentAt(hash: Hasher, events: seq<Event>, i: nat): Option<Sent>
    requires i <= |events|
  {
    if i == 0 then None else NextSent(hash, SentAt(hash, events, i - 1), events[i - 1])
  }

  function TickOf(last: Option<Sent>, w: WorldId): nat {
    if last.Some? && w in last.value.carried then last.value.tick else 0
  }

  /** The current view remembers for each entity the tick of the last frame if that frame carried it, and else nothing; the
      acknowledged view remembers no ticks at all. */
  predicate Remembers(c: Conn, last: Option<Sent>) {
    && (forall w | w in c.acked :: c.acked[w].lastSent == 0)
    && (forall w | w in c.current :: c.current[w].lastSent == TickOf(last, w))
    && (last.Some? ==> last.value.carried <= c.current.Keys)
  }

  lemma ListedKinds(hash: Hasher, frame: StateFrame, sent: Ops)
    requires Lists(FrameOps(hash, frame), sent)
    ensures forall w :: w in Carried(hash, frame) <==> w in sent && sent[w].kind != Leave
  {
    var ops := FrameOps(hash, frame);
    OpMapContents(ops);
    forall w
      ensures w in Carried(hash, frame) <==> w in sent && sent[w].kind != Leave
    {
      if w in sent {
        var i :| 0 <= i < |ops| && ops[i].wid == w;
        assert ops[i] in ops && sent[w] == ops[i];
      }
      if op :| op in ops && op.kind != Leave && op.wid == w {
        var i :| 0 <= i < |ops| && ops[i] == op;
        assert sent[w] == ops[i];
      }
    }
  }

  lemma {:induction false} AckOpsForget(acked: map<WorldId, Tracked>, ops: seq<SentOp>)
    requires forall w | w in acked :: acked[w].lastSent == 0
    ensures forall w | w in AckOps(acked, ops) :: AckOps(acked, ops)[w].lastSent == 0
  {
    if ops != [] {
      AckOpsForget(acked, ops[..|ops| - 1]);
    }
  }

  lemma {:induction false} AckRecordsForget(acked: map<WorldId, Tracked>, records: seq<SentRecord>)
    requires forall w | w in acked :: acked[w].lastSent == 0
    ensures forall w | w in AckRecords(acked, records) :: AckRecords(acked, records)[w].lastSent == 0
  {
    if records != [] {
      AckRecordsForget(acked, records[..|records| - 1]);
      AckOpsForget(AckRecords(acked, records[..|records| - 1]), records[|records| - 1].ops);
    }
  }

  lemma LandedTicks(scan: Scan, table: FidTable, order: seq<WorldId>, done: set<WorldId>)
    ensures var found := ScanOver(scan, table, order, done);
            forall w | w in found.landing :: found.landing[w].lastSent == scan.tick
  {
  }

  /** What a delta leaves: the frame's tick for what it carries, the acknowledged entries for all else. */
  lemma DeltaTicks(s: Run, input: BuildInput, found: ScanResult, trimmed: set<WorldId>, current: map<WorldId, Tracked>)
    requires LandsOps(found) && trimmed <= OfKind(found.ops, Update).Keys && trimmed <= s.conn.acked.Keys
    requires current == Rebuilt(s.conn.acked, found.landing + FallBack(s.conn.acked, trimmed), OfKind(found.ops, Leave).Keys)
    requires forall w | w in found.landing :: found.landing[w].lastSent == input.tick
    requires forall w | w in s.conn.acked :: s.conn.acked[w].lastSent == 0
    ensures var sent := found.ops - trimmed;
            TicksOf(current, sent, input.tick)
  {
    var sent := found.ops - trimmed;
    forall w | w in sent && sent[w].kind != Leave
      ensures w in current
    {
      RebuiltAt(s.conn.acked, found, trimmed, w);
    }
    forall w | w in current
      ensures current[w].lastSent == if w in sent && sent[w].kind != Leave then input.tick else 0
    {
      RebuiltAt(s.conn.acked, found, trimmed, w);
      assert w in trimmed ==> w in OfKind(found.ops, Update) && found.ops[w].kind == Update;
      assert w in OfKind(found.ops, Leave) <==> w in found.ops && found.ops[w].kind == Leave;
    }
  }

  /** What a delta leaves and sends, as found by its scan. */
  lemma DeltaCurrent(hash: Hasher, s: Run, input: BuildInput, trace: BuildTrace, frame: StateFrame, t: Run)
    requires Bookkept(s) && InPlace(s.conn) && Ticks(hash)(s, input, trace, Some(frame), t) && !BuildsKeyframe(s.conn, input)
    ensures var found := Found(s.conn, input, s.throttled, trace.candidates);
            && t.conn.current == Rebuilt(s.conn.acked, found.landing + FallBack(s.conn.acked, trace.trimmed), OfKind(found.ops, Leave).Keys)
            && SentBy(s, input, trace) == found.ops - trace.trimmed
  {
    FrameSent(hash, s, input, trace, frame, t);
    SendingFacts(hash, s, SendingOf(s, input, trace, frame), input, t);
    DeltaSentFacts(hash, s, input, trace, frame, t);
    PreparedIsRebuilt(s.conn, Found(s.conn, input, s.throttled, trace.candidates), trace.trimmed);
  }

  lemma FoundTicks(s: Run, input: BuildInput, candidates: seq<WorldId>)
    ensures var found := Found(s.conn, input, s.throttled, candidates);
            forall w | w in found.landing :: found.landing[w].lastSent == input.tick
  {
    var scan := ScanOf(s.conn, input);
    LandedTicks(scan, s.conn.table, candidates, Elements(candidates));
    LandedTicks(scan, s.conn.table, input.visible, scan.All());
  }

  /** The ticks in a view, told by the operations of the frame that left it. */
  ghost predicate TicksOf(current: map<WorldId, Tracked>, sent: Ops, tick: nat) {
    && (forall w | w in current :: current[w].lastSent == if w in sent && sent[w].kind != Leave then tick else 0)
    && (forall w | w in sent && sent[w].kind != Leave :: w in current)
  }

  lemma DeltaRemembers(hash: Hasher, s: Run, input: BuildInput, trace: BuildTrace, frame: StateFrame, t: Run, last: Option<Sent>,
                       sent: Ops)
    requires Bookkept(s) && InPlace(s.conn) && Remembers(s.conn, last) && Ticks(hash)(s, input, trace, Some(frame), t)
    requires !BuildsKeyframe(s.conn, input) && sent == SentBy(s, input, trace)
    ensures TicksOf(t.conn.current, sent, input.tick)
  {
    DeltaCurrent(hash, s, input, trace, frame, t);
    DeltaSentFacts(hash, s, input, trace, frame, t);
    FoundTicks(s, input, trace.candidates);
    DeltaTicks(s, input, Found(s.conn, input, s.throttled, trace.candidates), trace.trimmed, t.conn.current);
  }

  lemma KeyframeRemembers(hash: Hasher, s: Run, input: BuildInput, trace: BuildTrace, frame: StateFrame, t: Run)
    requires Bookkept(s) && Ticks(hash)(s, input, trace, Some(frame), t) && BuildsKeyframe(s.conn, input)
    ensures TicksOf(t.conn.current, OfKind(SentBy(s, input, trace), Enter), input.tick)
  {
    FrameSent(hash, s, input, trace, frame, t);
    var g := SendingOf(s, input, trace, frame);
    SendingFacts(hash, s, g, input, t);
    KeyframeTicks(g.c, input, g.p.table.fids);
  }

  lemma CarriedBy(hash: Hasher, s: Run, input: BuildInput, trace: BuildTrace, frame: StateFrame, t: Run)
    requires Ticks(hash)(s, input, trace, Some(frame), t)
    ensures frame.Keyframe? == BuildsKeyframe(s.conn, input)
    ensures var sent := if frame.Keyframe? then OfKind(SentBy(s, input, trace), Enter) else SentBy(s, input, trace);
            forall w :: w in Carried(hash, frame) <==> w in sent && sent[w].kind != Leave
  {
    FrameSent(hash, s, input, trace, frame, t);
    var g := SendingOf(s, input, trace, frame);
    SendingLists(hash, g, input, t);
    ListedKinds(hash, frame, if frame.Keyframe? then OfKind(g.sent, Enter) else g.sent);
  }

  lemma TicksRemembered(c: Conn, sent: Ops, tick: nat, carried: set<WorldId>)
    requires TicksOf(c.current, sent, tick) && (forall w | w in c.acked :: c.acked[w].lastSent == 0)
    requires forall w :: w in carried <==> w in sent && sent[w].kind != Leave
    ensures Remembers(c, Some(Sent(tick, carried)))
  {
  }

  lemma DeltaCarried(hash: Hasher, s: Run, input: BuildInput, trace: BuildTrace, frame: StateFrame, t: Run, sent: Ops)
    requires Ticks(hash)(s, input, trace, Some(frame), t) && !BuildsKeyframe(s.conn, input) && sent == SentBy(s, input, trace)
    ensures forall w :: w in Carried(hash, frame) <==> w in sent && sent[w].kind != Leave
  {
    CarriedBy(hash, s, input, trace, frame, t);
  }

  lemma KeyframeTold(hash: Hasher, s: Run, input: BuildInput, trace: BuildTrace, frame: StateFrame, t: Run) returns (sent: Ops)
    requires Bookkept(s) && Ticks(hash)(s, input, trace, Some(frame), t) && BuildsKeyframe(s.conn, input)
    ensures TicksOf(t.conn.current, sent, input.tick) && forall w :: w in Carried(hash, frame) <==> w in sent && sent[w].kind != Leave
  {
    CarriedBy(hash, s, input, trace, frame, t);
    KeyframeRemembers(hash, s, input, trace, frame, t);
    sent := OfKind(SentBy(s, input, trace), Enter);
  }

  lemma DeltaTold(hash: Hasher, s: Run, input: BuildInput, trace: BuildTrace, frame: StateFrame, t: Run, last: Option<Sent>) returns (sent: Ops)
    requires Bookkept(s) && InPlace(s.conn) && Remembers(s.conn, last) && Ticks(hash)(s, input, trace, Some(frame), t)
    requires !BuildsKeyframe(s.conn, input)
    ensures TicksOf(t.conn.current, sent, input.tick) && forall w :: w in Carried(hash, frame) <==> w in sent && sent[w].kind != Leave
  {
    sent := SentBy(s, input, trace);
    DeltaCarried(hash, s, input, trace, frame, t, sent);
    DeltaRemembers(hash, s, input, trace, frame, t, last, sent);
  }

  lemma FrameRemembers(hash: Hasher, s: Run, input: BuildInput, trace: BuildTrace, frame: StateFrame, t: Run, last: Option<Sent>)
    requires Bookkept(s) && InPlace(s.conn) && Remembers(s.conn, last) && Ticks(hash)(s, input, trace, Some(frame), t)
    ensures Remembers(t.conn, Some(Sent(input.tick, Carried(hash, frame))))
  {
    AckedStays(hash, s, input, trace, frame, t);
    if BuildsKeyframe(s.conn, input) {
      var sent := KeyframeTold(hash, s, input, trace, frame, t);
      TicksRemembered(t.conn, sent, input.tick, Carried(hash, frame));
    } else {
      var sent := DeltaTold(hash, s, input, trace, frame, t, last);
      TicksRemembered(t.conn, sent, input.tick, Carried(hash, frame));
    }
  }

  lemma AckedStays(hash: Hasher, s: Run, input: BuildInput, trace: BuildTrace, frame: StateFrame, t: Run)
    requires Bookkept(s) && Ticks(hash)(s, input, trace, Some(frame), t)
    ensures t.conn.acked == s.conn.acked || t.conn.acked == map[]
  {
    FrameSent(hash, s, input, trace, frame, t);
    SendingFacts(hash, s, SendingOf(s, input, trace, frame), input, t);
  }

  /** What a keyframe leaves: its tick, for all it shows. */
  lemma KeyframeTicks(c: Conn, input: BuildInput, fids: map<WorldId, FeatureId>)
    ensures var view, sent := KeyframeView(input, fids), OfKind(KeyframeOps(c, input, fids), Enter);
            TicksOf(view, sent, input.tick)
  {
    var sent := KeyframeOps(c, input, fids);
    forall w | w in KeyframeView(input, fids)
      ensures w in sent && sent[w].kind == Enter
    {
    }
  }

  lemma StepRemembers(hash: Hasher, s: Run, e: Event, t: Run, last: Option<Sent>)
    requires Bookkept(s) && InPlace(s.conn) && Remembers(s.conn, last) && Steps(hash)(s, e, t)
    ensures Remembers(t.conn, NextSent(hash, last, e))
  {
    match e
    case Tick(input, trace, frame) =>
      if frame == None {
        NoFrameSent(hash, s, input, trace, t);
      } else {
        FrameRemembers(hash, s, input, trace, frame.value, t, last);
      }
    case Ack(k) =>
      if Outcome(s.conn, k) == Accepted {
        AckRecordsForget(s.conn.acked, s.conn.queue.records[..CoveredCount(s.conn.queue.records, k)]);
      }
    case Reconnect =>
    case AskKeyframe =>
  }

  lemma RunStep(hash: Hasher, states: seq<Run>, events: seq<Event>, i: nat)
    requires IsRun(hash, states, events) && i < |events|
    ensures Bookkept(states[i]) && InPlace(states[i].conn) && Steps(hash)(states[i], events[i], states[i + 1])
  {
    RunInPlace(hash, states[..i + 1], events[..i]);
  }

  /** `p` goes from each state to the next, along with the last frame. */
  ghost predicate Follows(p: (Run, Option<Sent>) -> bool, hash: Hasher, states: seq<Run>, events: seq<Event>)
    requires |states| == |events| + 1
  {
    forall j | 0 <= j < |events| && p(states[j], SentAt(hash, events, j)) :: p(states[j + 1], SentAt(hash, events, j + 1))
  }

  lemma {:induction false} Along(p: (Run, Option<Sent>) -> bool, hash: Hasher, states: seq<Run>, events: seq<Event>, i: nat)
    requires |states| == |events| + 1 && i <= |events| && p(states[0], None) && Follows(p, hash, states, events)
    ensures p(states[i], SentAt(hash, events, i))
  {
    if i > 0 {
      Along(p, hash, states, events, i - 1);
      assert p(states[i - 1 + 1], SentAt(hash, events, i - 1 + 1));
    }
  }

  /** In every run the builder remembers when an entity was sent only if the last frame carried it. */
  lemma RunRemembers(hash: Hasher, states: seq<Run>, events: seq<Event>, i: nat)
    requires IsRun(hash, states, events) && i <= |events|
    ensures Remembers(states[i].conn, SentAt(hash, events, i))
  {
    var p := (s: Run, last: Option<Sent>) => Remembers(s.conn, last);
    forall j | 0 <= j < |events| && p(states[j], SentAt(hash, events, j))
      ensures p(states[j + 1], SentAt(hash, events, j + 1))
    {
      RunStep(hash, states, events, j);
      StepRemembers(hash, states[j], events[j], states[j + 1], SentAt(hash, events, j));
    }
    Along(p, hash, states, events, i);
  }

  // ---- Exactly when an update is withheld ----

  /** The entity is in sight, the client has it, and what it has is out of date. */
  predicate Outdated(s: Run, input: BuildInput, w: WorldId) {
    w in input.visible && w in input.global && w in s.conn.acked && s.conn.acked[w].hash != input.global[w].hash
  }

  /** Too soon after the tick remembered, for the entity's class: classes sent on change know no delay. */
  predicate TooSoon(input: BuildInput, w: WorldId, tick: nat)
    requires w in input.global
  {
    match input.global[w].projected.frequency
    case OnChange => false
    case Slow => (input.tick - tick) % U64 < input.cfg.slowInterval
    case Fast => (input.tick - tick) % U64 < input.cfg.dataInterval
  }

  /** The build looks at the entity: it scans everything, or the entity is a candidate. */
  predicate Visited(input: BuildInput, trace: BuildTrace, w: WorldId) {
    input.fromCache ==> w in trace.candidates
  }

  lemma VisitedTells(scan: Scan, table: FidTable, order: seq<WorldId>, done: set<WorldId>, w: WorldId)
    requires w in done
    ensures var found := ScanOver(scan, table, order, done);
            && (w in found.throttled <==> scan.Decide(w) == Throttled)
            && (w in found.ops <==> scan.Decide(w).Sends())
            && (scan.Decide(w) == DoUpdate ==> found.ops[w].kind == Update)
  {
  }

  lemma OutdatedDecision(s: Run, input: BuildInput, last: Option<Sent>, w: WorldId)
    requires Remembers(s.conn, last) && Outdated(s, input, w)
    ensures ScanOf(s.conn, input).Decide(w) == if TooSoon(input, w, TickOf(last, w)) then Throttled else DoUpdate
  {
  }

  lemma DeltaFound(hash: Hasher, s: Run, input: BuildInput, trace: BuildTrace, frame: Option<StateFrame>, t: Run, w: WorldId)
    requires Bookkept(s) && Ticks(hash)(s, input, trace, frame, t) && !BuildsKeyframe(s.conn, input)
    ensures var found := Found(s.conn, input, s.throttled, trace.candidates);
            && t.throttled == found.throttled && (w in found.ops ==> frame.Some?)
            && (frame.Some? ==>
                  (w in Carried(hash, frame.value) <==> w in found.ops && w !in trace.trimmed && found.ops[w].kind != Leave))
  {
    assert TickStep(hash, s, input, trace, frame, t);
    if frame.Some? {
      FrameSent(hash, s, input, trace, frame.value, t);
      SendingLists(hash, SendingOf(s, input, trace, frame.value), input, t);
      ListedKinds(hash, frame.value, SentBy(s, input, trace));
    }
  }

  lemma WithheldBy(hash: Hasher, s: Run, input: BuildInput, trace: BuildTrace, frame: Option<StateFrame>, t: Run, last: Option<Sent>, w: WorldId)
    requires Bookkept(s) && Remembers(s.conn, last) && Ticks(hash)(s, input, trace, frame, t)
    requires !BuildsKeyframe(s.conn, input) && Outdated(s, input, w) && Visited(input, trace, w)
    ensures w in t.throttled <==> TooSoon(input, w, TickOf(last, w))
    ensures w in t.throttled ==> frame == None || w !in Carried(hash, frame.value)
    ensures w !in t.throttled ==> frame.Some? && (w in Carried(hash, frame.value) || w in trace.trimmed)
  {
    var scan := ScanOf(s.conn, input);
    OutdatedDecision(s, input, last, w);
    if input.fromCache {
      VisitedTells(scan, s.conn.table, trace.candidates, Elements(trace.candidates), w);
    } else {
      VisitedTells(scan, s.conn.table, input.visible, scan.All(), w);
    }
    DeltaFound(hash, s, input, trace, frame, t, w);
  }

  predicate SendsNoKeyframe(e: Event) {
    e.Tick? && (e.frame == None || e.frame.value.Delta?)
  }

  /** In every run: an entity in sight that is out of date with the client is withheld by a build that looks at it and sends no
      keyframe exactly if it is of a class with a delay and the build comes too soon after the last frame, if that frame carried
      it, or else after tick zero. Otherwise it is sent, or cut from the frame by the quota. */
  lemma WithheldIff(hash: Hasher, states: seq<Run>, events: seq<Event>, i: nat, w: WorldId)
    requires IsRun(hash, states, events) && i < |events| && SendsNoKeyframe(events[i])
    requires Outdated(states[i], events[i].input, w) && Visited(events[i].input, events[i].trace, w)
    ensures var input, frame, last := events[i].input, events[i].frame, SentAt(hash, events, i);
            && (w in states[i + 1].throttled <==> TooSoon(input, w, TickOf(last, w)))
            && (w in states[i + 1].throttled ==> frame == None || w !in Carried(hash, frame.value))
            && (w !in states[i + 1].throttled ==> frame.Some? && (w in Carried(hash, frame.value) || w in events[i].trace.trimmed))
  {
    var input, trace, frame := events[i].input, events[i].trace, events[i].frame;
    RunRemembers(hash, states, events, i);
    RunStep(hash, states, events, i);
    DeltaBuildOf(hash, states[i], input, trace, frame, states[i + 1]);
    WithheldBy(hash, states[i], input, trace, frame, states[i + 1], SentAt(hash, events, i), w);
  }

  lemma DeltaBuildOf(hash: Hasher, s: Run, input: BuildInput, trace: BuildTrace, frame: Option<StateFrame>, t: Run)
    requires Ticks(hash)(s, input, trace, frame, t) && (frame == None || frame.value.Delta?)
    ensures !BuildsKeyframe(s.conn, input)
  {
    if frame == None {
      NoFrameSent(hash, s, input, trace, t);
    } else {
      FrameSent(hash, s, input, trace, frame.value, t);
    }
  }

  lemma FirstIntervalOver(input: BuildInput, w: WorldId)
    requires w in input.global && input.cfg.slowInterval <= input.tick < U64 && input.cfg.dataInterval <= input.tick
    ensures !TooSoon(input, w, 0)
  {
  }

  /** The delay is forgotten with the next frame: once a frame went out without the entity, however recently it was sent before,
      a build from the first interval on sends it again or cuts it from the frame. */
  lemma DelayIsForgotten(hash: Hasher, states: seq<Run>, events: seq<Event>, i: nat, w: WorldId)
    requires IsRun(hash, states, events) && i < |events| && SendsNoKeyframe(events[i])
    requires Outdated(states[i], events[i].input, w) && Visited(events[i].input, events[i].trace, w)
    requires TickOf(SentAt(hash, events, i), w) == 0
    requires events[i].input.cfg.slowInterval <= events[i].input.tick < U64 && events[i].input.cfg.dataInterval <= events[i].input.tick
    ensures events[i].frame.Some? && (w in Carried(hash, events[i].frame.value) || w in events[i].trace.trimmed)
  {
    FirstIntervalOver(events[i].input, w);
    WithheldIff(hash, states, events, i, w);
  }
}
