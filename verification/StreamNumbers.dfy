/** The numbers that frames carry and acknowledgements are judged by, told from the events of a run. */
module StreamNumbers {
  import opened Options
  import opened StreamTypes
  import opened Connection
  import opened Acknowledge
  import opened DeltaBuild
  import opened FrameSpec
  import opened Sorting
  import opened StreamRun
  import opened KeyframeTiming

  /** The epoch, how many frames it has had, the snapshot it began after, and the last one acknowledged in it. */
  datatype Book = Book(epoch: nat, frames: nat, floor: nat, acked: nat)

  /** What an acknowledgement is answered: snapshots of earlier epochs, those acknowledged already, those in flight, others. */
  function Answer(b: Book, inFlight: set<nat>, k: nat): AckResult {
    if k <= b.floor then EpochMismatch
    else if k <= b.acked then DuplicateIgnored
    else if k in inFlight then Accepted
    else UnknownSnapshot
  }

  function InFlight(c: Conn): set<nat> {
    set r | r in c.queue.records :: r.snapshotId
  }

  function NextBook(b: Book, s: Run, e: Event): Book {
    match e
    case Tick(input, _, frame) =>
      var begun := if RunsOut(s.conn, input) then Book(b.epoch + 1, 0, input.snapshotId, 0) else b;
      if frame == None then b else begun.(frames := begun.frames + 1)
    case Ack(k) => if Answer(b, InFlight(s.conn), k) == Accepted then b.(acked := k) else b
    case Reconnect => Book(b.epoch + 1, 0, s.latest, 0)
    case AskKeyframe => b
  }

  function BookAt(states: seq<Run>, events: seq<Event>, i: nat): Book
    requires i <= |events| && |states| == |events| + 1
  {
    if i == 0 then Book(1, 0, 0, 0) else NextBook(BookAt(states, events, i - 1), states[i - 1], events[i - 1])
  }

  predicate Booked(b: Book, s: Run) {
    s.conn.epoch == b.epoch && s.conn.sequence == b.frames == |s.frames| && s.conn.floor == b.floor && s.conn.baseline == b.acked
  }

  lemma AnswerIsOutcome(b: Book, s: Run, k: nat)
    requires Booked(b, s)
    ensures Outcome(s.conn, k) == Answer(b, InFlight(s.conn), k)
  {
    var records := s.conn.queue.records;
    if k in InFlight(s.conn) {
      var r :| r in records && r.snapshotId == k;
      var i :| 0 <= i < |records| && records[i] == r;
    }
  }

  lemma FrameBooked(hash: Hasher, b: Book, s: Run, input: BuildInput, trace: BuildTrace, frame: StateFrame, t: Run)
    requires Booked(b, s) && Ticks(hash)(s, input, trace, Some(frame), t)
    ensures Booked(NextBook(b, s, Tick(input, trace, Some(frame))), t)
    ensures frame.snapshotId == input.snapshotId == s.latest + 1 && frame.baseline == if frame.Keyframe? then 0 else b.acked
  {
    assert TickStep(hash, s, input, trace, Some(frame), t);
    RunsOutIff(hash, s.conn, input);
    FrameSent(hash, s, input, trace, frame, t);
  }

  lemma StepBooked(hash: Hasher, b: Book, s: Run, e: Event, t: Run)
    requires Booked(b, s) && Steps(hash)(s, e, t)
    ensures Booked(NextBook(b, s, e), t)
  {
    match e
    case Tick(input, trace, frame) =>
      if frame == None {
        NoFrameSent(hash, s, input, trace, t);
      } else {
        FrameBooked(hash, b, s, input, trace, frame.value, t);
      }
    case Ack(k) => AnswerIsOutcome(b, s, k);
    case Reconnect =>
    case AskKeyframe =>
  }

  /** `p` goes from each state to the next, along with the book. */
  ghost predicate Follows(p: (Book, Run) -> bool, states: seq<Run>, events: seq<Event>)
    requires |states| == |events| + 1
  {
    forall j | 0 <= j < |events| && p(BookAt(states, events, j), states[j]) :: p(BookAt(states, events, j + 1), states[j + 1])
  }

  lemma {:induction false} Along(p: (Book, Run) -> bool, states: seq<Run>, events: seq<Event>, i: nat)
    requires |states| == |events| + 1 && i <= |events| && p(Book(1, 0, 0, 0), states[0]) && Follows(p, states, events)
    ensures p(BookAt(states, events, i), states[i])
  {
    if i > 0 {
      Along(p, states, events, i - 1);
      assert p(BookAt(states, events, i - 1 + 1), states[i - 1 + 1]);
    }
  }

  lemma RunBooked(hash: Hasher, states: seq<Run>, events: seq<Event>, i: nat)
    requires IsRun(hash, states, events) && i <= |events|
    ensures Booked(BookAt(states, events, i), states[i])
  {
    var p := (b: Book, s: Run) => Booked(b, s);
    forall j | 0 <= j < |events| && p(BookAt(states, events, j), states[j])
      ensures p(BookAt(states, events, j + 1), states[j + 1])
    {
      RunStep(hash, states, events, j);
      StepBooked(hash, BookAt(states, events, j), states[j], events[j], states[j + 1]);
    }
    Along(p, states, events, i);
  }

  /** In every run: epochs are counted from one, by reconnections and by running out of FIDs; frames are counted from the start of
      their epoch; each carries the snapshot of its tick, and a delta the snapshot last acknowledged in the epoch. */
  lemma FramesAreNumbered(hash: Hasher, states: seq<Run>, events: seq<Event>, i: nat)
    requires IsRun(hash, states, events) && i <= |events|
    ensures var b := BookAt(states, events, i);
            && states[i].conn.epoch == b.epoch && states[i].conn.sequence == b.frames == |states[i].frames|
            && (i < |events| && events[i].Tick? && events[i].frame.Some? ==>
                  && events[i].frame.value.snapshotId == events[i].input.snapshotId == states[i].latest + 1
                  && events[i].frame.value.baseline == if events[i].frame.value.Keyframe? then 0 else b.acked)
  {
    RunBooked(hash, states, events, i);
    if i < |events| && events[i].Tick? && events[i].frame.Some? {
      RunStep(hash, states, events, i);
      FrameBooked(hash, BookAt(states, events, i), states[i], events[i].input, events[i].trace, events[i].frame.value, states[i + 1]);
    }
  }

  /** In every run the answer to an acknowledgement is told by the epoch's beginning, the last acknowledgement in it, and what is in
      flight; and only an accepted one has any effect. */
  lemma AcksAreAnswered(hash: Hasher, states: seq<Run>, events: seq<Event>, i: nat, k: nat)
    requires IsRun(hash, states, events) && i <= |events|
    ensures Outcome(states[i].conn, k) == Answer(BookAt(states, events, i), InFlight(states[i].conn), k)
    ensures i < |events| && events[i] == Ack(k) && Answer(BookAt(states, events, i), InFlight(states[i].conn), k) != Accepted ==>
              states[i + 1] == states[i]
  {
    RunBooked(hash, states, events, i);
    AnswerIsOutcome(BookAt(states, events, i), states[i], k);
    if i < |events| {
      RunStep(hash, states, events, i);
    }
  }

  lemma LatestGrows(hash: Hasher, s: Run, e: Event, t: Run)
    requires Steps(hash)(s, e, t)
    ensures s.latest <= t.latest && (e.Tick? ==> t.latest == e.input.snapshotId == s.latest + 1)
  {
    if e.Tick? {
      assert TickStep(hash, s, e.input, e.trace, e.frame, t);
    }
  }

  /** From one state to the next: snapshots are only added, and a new epoch begins no earlier than those taken. */
  predicate Rises(states: seq<Run>, events: seq<Event>, i: nat)
    requires i < |events| && |states| == |events| + 1
  {
    var a, b := BookAt(states, events, i), BookAt(states, events, i + 1);
    && states[i].latest <= states[i + 1].latest && a.epoch <= b.epoch
    && (a.epoch == b.epoch ==> a.floor == b.floor) && (a.epoch < b.epoch ==> b.floor >= states[i].latest)
  }

  lemma EachRises(hash: Hasher, states: seq<Run>, events: seq<Event>)
    requires IsRun(hash, states, events)
    ensures forall i | 0 <= i < |events| :: Rises(states, events, i)
  {
    forall i | 0 <= i < |events|
      ensures Rises(states, events, i)
    {
      RunStep(hash, states, events, i);
      LatestGrows(hash, states[i], events[i], states[i + 1]);
    }
  }

  /** Once a later epoch has begun, it began no earlier than the snapshots then taken. */
  lemma {:induction false} FloorAfter(states: seq<Run>, events: seq<Event>, j: nat, i: nat)
    requires |states| == |events| + 1 && (forall m | 0 <= m < |events| :: Rises(states, events, m)) && j <= i <= |events|
    ensures states[j].latest <= states[i].latest && BookAt(states, events, j).epoch <= BookAt(states, events, i).epoch
    ensures BookAt(states, events, j).epoch < BookAt(states, events, i).epoch ==> BookAt(states, events, i).floor >= states[j].latest
  {
    if j < i {
      FloorAfter(states, events, j, i - 1);
      assert Rises(states, events, i - 1);
    }
  }

  /** A frame sent before an epoch began is refused as another epoch's. */
  lemma EarlierEpochsAreRefused(hash: Hasher, states: seq<Run>, events: seq<Event>, j: nat, i: nat)
    requires IsRun(hash, states, events) && j < i <= |events| && events[j].Tick? && events[j].frame.Some?
    requires BookAt(states, events, j + 1).epoch < BookAt(states, events, i).epoch
    ensures Outcome(states[i].conn, events[j].frame.value.snapshotId) == EpochMismatch
  {
    var k := events[j].frame.value.snapshotId;
    FrameIsLatest(hash, states, events, j);
    LaterFloor(hash, states, events, j + 1, i);
    RefusedBelow(BookAt(states, events, i), InFlight(states[i].conn), k);
    AcksAreAnswered(hash, states, events, i, k);
  }

  lemma LaterFloor(hash: Hasher, states: seq<Run>, events: seq<Event>, j: nat, i: nat)
    requires IsRun(hash, states, events) && j <= i <= |events| && BookAt(states, events, j).epoch < BookAt(states, events, i).epoch
    ensures BookAt(states, events, i).floor >= states[j].latest
  {
    EachRises(hash, states, events);
    FloorAfter(states, events, j, i);
  }

  lemma RefusedBelow(b: Book, inFlight: set<nat>, k: nat)
    requires k <= b.floor
    ensures Answer(b, inFlight, k) == EpochMismatch
  {
  }

  lemma FrameIsLatest(hash: Hasher, states: seq<Run>, events: seq<Event>, j: nat)
    requires IsRun(hash, states, events) && j < |events| && events[j].Tick? && events[j].frame.Some?
    ensures events[j].frame.value.snapshotId == states[j + 1].latest
  {
    FramesAreNumbered(hash, states, events, j);
    RunStep(hash, states, events, j);
    LatestGrows(hash, states[j], events[j], states[j + 1]);
  }

  // ---- The order within a frame ----

  /** Keyframes list entities by WID; deltas list leaves by FID, enters by WID and updates by FID. */
  predicate Listed(frame: StateFrame) {
    match frame
    case Keyframe(_, _, entities) => forall i, j | 0 <= i < j < |entities| :: entities[i].wid <= entities[j].wid
    case Delta(_, _, enters, updates, leaves) =>
      && (forall i, j | 0 <= i < j < |leaves| :: leaves[i].fid <= leaves[j].fid)
      && (forall i, j | 0 <= i < j < |enters| :: enters[i].wid <= enters[j].wid)
      && (forall i, j | 0 <= i < j < |updates| :: updates[i].fid <= updates[j].fid)
  }

  lemma FrameSorted(hash: Hasher, s: Run, input: BuildInput, trace: BuildTrace, frame: StateFrame, t: Run)
    requires Ticks(hash)(s, input, trace, Some(frame), t)
    ensures frame.Keyframe? ==> Sorted(ByEntityWid, frame.entities)
    ensures frame.Delta? ==> Sorted(ByLeaveFid, frame.leaves) && Sorted(ByEntityWid, frame.enters) && Sorted(ByFid, frame.updates)
  {
    assert TickStep(hash, s, input, trace, Some(frame), t);
  }

  lemma SortedIsListed(frame: StateFrame)
    requires frame.Keyframe? ==> Sorted(ByEntityWid, frame.entities)
    requires frame.Delta? ==> Sorted(ByLeaveFid, frame.leaves) && Sorted(ByEntityWid, frame.enters) && Sorted(ByFid, frame.updates)
    ensures Listed(frame)
  {
    match frame
    case Keyframe(_, _, entities) => assert forall i, j | 0 <= i < j < |entities| :: ByEntityWid(entities[i], entities[j]);
    case Delta(_, _, enters, updates, leaves) => DeltaListed(enters, updates, leaves);
  }

  lemma DeltaListed(enters: seq<EntityFrame>, updates: seq<EntityFrame>, leaves: seq<EntityLeave>)
    requires Sorted(ByLeaveFid, leaves) && Sorted(ByEntityWid, enters) && Sorted(ByFid, updates)
    ensures forall i, j | 0 <= i < j < |leaves| :: leaves[i].fid <= leaves[j].fid
    ensures forall i, j | 0 <= i < j < |enters| :: enters[i].wid <= enters[j].wid
    ensures forall i, j | 0 <= i < j < |updates| :: updates[i].fid <= updates[j].fid
  {
    assert forall i, j | 0 <= i < j < |leaves| :: ByLeaveFid(leaves[i], leaves[j]);
    assert forall i, j | 0 <= i < j < |enters| :: ByEntityWid(enters[i], enters[j]);
    assert forall i, j | 0 <= i < j < |updates| :: ByFid(updates[i], updates[j]);
  }

  /** In every run all frames are in order. */
  lemma FramesAreListed(hash: Hasher, states: seq<Run>, events: seq<Event>, i: nat)
    requires IsRun(hash, states, events) && i < |events| && events[i].Tick? && events[i].frame.Some?
    ensures Listed(events[i].frame.value)
  {
    RunStep(hash, states, events, i);
    FrameSorted(hash, states[i], events[i].input, events[i].trace, events[i].frame.value, states[i + 1]);
    SortedIsListed(events[i].frame.value);
  }
}
