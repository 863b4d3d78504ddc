/** What a build brings about: unless it withholds or cuts something, the view after it is exactly what is in sight. */
module StreamSight {
  import opened Options
  import opened StreamTypes
  import opened Connection
  import opened FrameScan
  import opened DeltaBuild
  import opened FrameSpec
  import opened StreamRun
  import opened StreamCoherence
  import opened StreamViews
  import opened StreamRates

  /** The view has exactly the live entities in sight, each as it is. */
  ghost predicate ShowsSight(view: map<WorldId, Tracked>, input: BuildInput) {
    forall w :: (w in view <==> w in input.visible && w in input.global) && (w in view ==> view[w].hash == input.global[w].hash)
  }

  lemma KeyframeShowsSight(input: BuildInput, fids: map<WorldId, FeatureId>)
    ensures ShowsSight(KeyframeView(input, fids), input)
  {
  }

  /** What a scan does with an entity that it visits and does not withhold. */
  predicate Settled(scan: Scan, found: ScanResult, w: WorldId) {
    && (w in found.landing <==> scan.Decide(w) == DoEnter || scan.Decide(w) == DoUpdate)
    && (w in found.landing ==> w in scan.global && found.landing[w].hash == scan.global[w].hash)
    && (w in found.ops && found.ops[w].kind == Leave <==> scan.Decide(w) == DoLeave)
    && (w in found.ops ==> found.ops[w].kind == Leave || w in found.landing)
    && (w !in found.ops ==> scan.Agrees(w))
  }

  lemma VisitedSettles(scan: Scan, table: FidTable, order: seq<WorldId>, done: set<WorldId>, w: WorldId)
    requires w in done && w !in ScanOver(scan, table, order, done).throttled
    ensures Settled(scan, ScanOver(scan, table, order, done), w)
  {
  }

  lemma UnvisitedSettles(scan: Scan, table: FidTable, order: seq<WorldId>, done: set<WorldId>, w: WorldId)
    requires w !in done && scan.Agrees(w)
    ensures Settled(scan, ScanOver(scan, table, order, done), w)
  {
  }

  /** Every entity is settled: those visited as none is withheld, the others as they agree already. */
  lemma AllSettled(s: Run, input: BuildInput, candidates: seq<WorldId>)
    requires Elements(input.visible) <= input.global.Keys
    requires input.fromCache ==> SteadySince(s, input) && CandidatesOk(s.conn, input, s.throttled, candidates)
    requires input.fromCache ==> InSight(s.conn, s.throttled, s.global, s.visible)
    requires Found(s.conn, input, s.throttled, candidates).throttled == {}
    ensures forall w :: Settled(ScanOf(s.conn, input), Found(s.conn, input, s.throttled, candidates), w)
  {
    var scan := ScanOf(s.conn, input);
    var order, done := (if input.fromCache then candidates else input.visible), (if input.fromCache then Elements(candidates) else scan.All());
    forall w
      ensures Settled(scan, ScanOver(scan, s.conn.table, order, done), w)
    {
      if w in done {
        VisitedSettles(scan, s.conn.table, order, done, w);
      } else {
        UnvisitedAgrees(s, input, candidates, w);
        UnvisitedSettles(scan, s.conn.table, order, done, w);
      }
    }
  }

  lemma RebuiltShowsSight(scan: Scan, found: ScanResult, input: BuildInput, view: map<WorldId, Tracked>)
    requires scan.global == input.global && scan.visible == Elements(input.visible) && scan.visible <= scan.global.Keys
    requires forall w :: Settled(scan, found, w)
    requires view == Rebuilt(scan.acked, found.landing + FallBack(scan.acked, {}), OfKind(found.ops, Leave).Keys)
    ensures ShowsSight(view, input)
  {
    forall w
      ensures (w in view <==> w in input.visible && w in input.global) && (w in view ==> view[w].hash == input.global[w].hash)
    {
      assert Settled(scan, found, w) && w !in FallBack(scan.acked, {});
      assert w in OfKind(found.ops, Leave) <==> w in found.ops && found.ops[w].kind == Leave;
    }
  }

  lemma QuietShowsSight(scan: Scan, found: ScanResult, input: BuildInput)
    requires scan.global == input.global && scan.visible == Elements(input.visible) && scan.visible <= scan.global.Keys
    requires (forall w :: Settled(scan, found, w)) && found.ops == map[]
    ensures ShowsSight(scan.acked, input)
  {
    forall w
      ensures (w in scan.acked <==> w in input.visible && w in input.global) && (w in scan.acked ==> scan.acked[w].hash == input.global[w].hash)
    {
      assert Settled(scan, found, w) && scan.Agrees(w);
    }
  }

  lemma DeltaSettled(hash: Hasher, s: Run, input: BuildInput, trace: BuildTrace, frame: Option<StateFrame>, t: Run)
    requires Bookkept(s) && Coherent(s) && Ticks(hash)(s, input, trace, frame, t) && !BuildsKeyframe(s.conn, input)
    requires (input.fromCache ==> s.coherent) && t.throttled == {}
    ensures Elements(input.visible) <= input.global.Keys
    ensures forall w :: Settled(ScanOf(s.conn, input), Found(s.conn, input, s.throttled, trace.candidates), w)
    ensures frame == None ==> Found(s.conn, input, s.throttled, trace.candidates).ops == map[]
  {
    assert TickStep(hash, s, input, trace, frame, t);
    AllSettled(s, input, trace.candidates);
  }

  /** In every run, a build that withholds and cuts nothing, and that scans everything or belongs to a coherent connection, leaves
      the view it works towards equal to what is in sight: the current view if it sent a frame, and the acknowledged one if there
      was nothing to send. So a connection whose frames are acknowledged shows the world as far as it can see. */
  lemma BuildShowsSight(hash: Hasher, states: seq<Run>, events: seq<Event>, i: nat)
    requires IsRun(hash, states, events) && i < |events| && events[i].Tick?
    requires (events[i].input.fromCache ==> states[i].coherent) && states[i + 1].throttled == {}
    requires events[i].frame.Some? && events[i].frame.value.Delta? ==> events[i].trace.trimmed == {}
    ensures ShowsSight(if events[i].frame.Some? then states[i + 1].conn.current else states[i + 1].conn.acked, events[i].input)
  {
    var s, input, trace, frame, t := states[i], events[i].input, events[i].trace, events[i].frame, states[i + 1];
    RunStep(hash, states, events, i);
    RunCoherent(hash, states[..i + 1], events[..i]);
    if frame == None {
      NoFrameSent(hash, s, input, trace, t);
      DeltaSettled(hash, s, input, trace, frame, t);
      QuietShowsSight(ScanOf(s.conn, input), Found(s.conn, input, s.throttled, trace.candidates), input);
    } else {
      FrameShowsSight(hash, s, input, trace, frame.value, t);
    }
  }

  lemma FrameShowsSight(hash: Hasher, s: Run, input: BuildInput, trace: BuildTrace, frame: StateFrame, t: Run)
    requires Bookkept(s) && InPlace(s.conn) && Coherent(s) && Ticks(hash)(s, input, trace, Some(frame), t)
    requires (input.fromCache ==> s.coherent) && t.throttled == {} && (frame.Delta? ==> trace.trimmed == {})
    ensures ShowsSight(t.conn.current, input)
  {
    FrameSent(hash, s, input, trace, frame, t);
    if frame.Keyframe? {
      SendingFacts(hash, s, SendingOf(s, input, trace, frame), input, t);
      KeyframeShowsSight(input, PreparedBy(s, input, trace).table.fids);
    } else {
      DeltaCurrent(hash, s, input, trace, frame, t);
      DeltaSettled(hash, s, input, trace, Some(frame), t);
      RebuiltShowsSight(ScanOf(s.conn, input), Found(s.conn, input, s.throttled, trace.candidates), input, t.conn.current);
    }
  }
}
