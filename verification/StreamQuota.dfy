/** The quota of updates in a delta: what is cut, and that an update can be cut for ever. */
module StreamQuota {
  import opened Options
  import opened StreamTypes
  import opened FrameScan
  import opened DeltaBuild
  import opened FrameSpec
  import opened Replica
  import opened StreamRun
  import opened StreamRates

  /** The entities that a frame updates. */
  function Updated(hash: Hasher, frame: StateFrame): set<WorldId> {
    set op | op in FrameOps(hash, frame) && op.kind == Update :: op.wid
  }

  /** Higher priority comes first, and then the smaller FID; how long an entity has waited does not count. */
  predicate Ahead(s: Run, input: BuildInput, a: WorldId, b: WorldId)
    requires a in s.conn.acked && b in s.conn.acked && a in input.global && b in input.global
  {
    || input.global[a].projected.priority > input.global[b].projected.priority
    || (input.global[a].projected.priority == input.global[b].projected.priority && s.conn.acked[a].fid < s.conn.acked[b].fid)
  }

  /** The frame keeps to the quota, and what is cut would come after all that is kept. */
  ghost predicate QuotaKept(s: Run, input: BuildInput, kept: set<WorldId>, cut: set<WorldId>) {
    && kept !! cut && (forall w | w in kept + cut :: w in s.conn.acked && w in input.global)
    && |kept| <= input.cfg.maxUpdates && (cut != {} ==> |kept| == input.cfg.maxUpdates)
    && forall k, c | k in kept && c in cut :: !Ahead(s, input, c, k)
  }

  lemma UpdatedIs(hash: Hasher, frame: StateFrame, sent: Ops)
    requires Lists(FrameOps(hash, frame), sent)
    ensures Updated(hash, frame) == OfKind(sent, Update).Keys
  {
    var ops := FrameOps(hash, frame);
    OpMapContents(ops);
    forall w
      ensures w in Updated(hash, frame) <==> w in OfKind(sent, Update)
    {
      if w in OfKind(sent, Update) {
        var i :| 0 <= i < |ops| && ops[i].wid == w;
        assert ops[i] in ops && sent[w] == ops[i];
      }
      if op :| op in ops && op.kind == Update && op.wid == w {
        var i :| 0 <= i < |ops| && ops[i] == op;
        assert sent[w] == ops[i];
      }
    }
  }

  lemma TrimmedKeepsQuota(s: Run, input: BuildInput, found: ScanResult, trimmed: set<WorldId>)
    requires TrimmedOk(ScanOf(s.conn, input), found, trimmed)
    ensures QuotaKept(s, input, OfKind(found.ops - trimmed, Update).Keys, trimmed)
  {
    var scan, updated := ScanOf(s.conn, input), OfKind(found.ops, Update).Keys;
    assert OfKind(found.ops - trimmed, Update).Keys == updated - trimmed;
    forall k, c | k in updated - trimmed && c in trimmed
      ensures !Ahead(s, input, c, k)
    {
      assert Urgent(UpdateOf(scan, k), UpdateOf(scan, c));
    }
  }

  lemma DeltaListed(hash: Hasher, s: Run, input: BuildInput, trace: BuildTrace, frame: StateFrame, t: Run)
    requires Ticks(hash)(s, input, trace, Some(frame), t) && frame.Delta?
    ensures var found := Found(s.conn, input, s.throttled, trace.candidates);
            TrimmedOk(ScanOf(s.conn, input), found, trace.trimmed) && Lists(FrameOps(hash, frame), found.ops - trace.trimmed)
  {
    FrameSent(hash, s, input, trace, frame, t);
    assert TickStep(hash, s, input, trace, Some(frame), t);
  }

  /** In every run: a delta updates no more entities than the quota allows, exactly as many if any update is cut, and none that
      is cut comes ahead of one that is kept. */
  lemma UpdatesWithinQuota(hash: Hasher, states: seq<Run>, events: seq<Event>, i: nat)
    requires IsRun(hash, states, events) && i < |events| && events[i].Tick? && events[i].frame.Some? && events[i].frame.value.Delta?
    ensures QuotaKept(states[i], events[i].input, Updated(hash, events[i].frame.value), events[i].trace.trimmed)
  {
    RunStep(hash, states, events, i);
    var s, input, trace, frame := states[i], events[i].input, events[i].trace, events[i].frame.value;
    DeltaListed(hash, s, input, trace, frame, states[i + 1]);
    var found := Found(s.conn, input, s.throttled, trace.candidates);
    TrimmedKeepsQuota(s, input, found, trace.trimmed);
    UpdatedIs(hash, frame, found.ops - trace.trimmed);
  }

  /** An update with a full quota of others ahead of it is cut, however often it was cut before: waiting does not bring it
      forward, so entities that change with every frame can keep it from the client for ever. */
  lemma CutAgain(hash: Hasher, states: seq<Run>, events: seq<Event>, i: nat, w: WorldId, others: set<WorldId>)
    requires IsRun(hash, states, events) && i < |events| && events[i].Tick? && events[i].frame.Some? && events[i].frame.value.Delta?
    requires w in Updated(hash, events[i].frame.value) + events[i].trace.trimmed
    requires others <= Updated(hash, events[i].frame.value) + events[i].trace.trimmed && |others| >= events[i].input.cfg.maxUpdates
    requires w in states[i].conn.acked && w in events[i].input.global
    requires forall o | o in others :: o in states[i].conn.acked && o in events[i].input.global && Ahead(states[i], events[i].input, o, w)
    ensures w !in Updated(hash, events[i].frame.value) && w in events[i].trace.trimmed
  {
    UpdatesWithinQuota(hash, states, events, i);
    var kept := Updated(hash, events[i].frame.value);
    if w in kept {
      assert w !in others;
      assert others <= kept;
      MoreThan(kept, others, w);
    }
  }

  lemma MoreThan(kept: set<WorldId>, others: set<WorldId>, w: WorldId)
    requires others <= kept && w in kept && w !in others
    ensures |kept| > |others|
  {
    assert others <= kept - {w};
    Fewer(others, kept - {w});
  }

  lemma {:induction false} Fewer(a: set<WorldId>, b: set<WorldId>)
    requires a <= b
    ensures |a| <= |b|
  {
    if a != {} {
      var x :| x in a;
      Fewer(a - {x}, b - {x});
    }
  }
}
