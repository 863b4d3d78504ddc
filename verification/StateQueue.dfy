/** The queue of frames waiting to be sent to a client: newer frames take the place of older ones. */
module StateQueue {
  import opened Options
  import opened StreamTypes
  import opened Replica
  import opened StreamViews

  /** A frame with the size of its encoding. */
  datatype Queued = Queued(frame: StateFrame, size: nat)

  function Sum(frames: seq<Queued>): nat {
    if frames == [] then 0 else frames[0].size + Sum(frames[1..])
  }

  /** `old` is a delta on the baseline that the new delta `f` is on. */
  predicate Superseded(old_: Queued, f: Queued) {
    old_.frame.Delta? && f.frame.Delta? && old_.frame.baseline == f.frame.baseline
  }

  /** The frames that `f` leaves in the queue. */
  function Rest(frames: seq<Queued>, f: Queued): (rest: seq<Queued>) {
    if frames == [] then []
    else Rest(frames[..|frames| - 1], f) + if Superseded(frames[|frames| - 1], f) then [] else [frames[|frames| - 1]]
  }

  function Pushed(frames: seq<Queued>, f: Queued): seq<Queued> {
    (if f.frame.Keyframe? then [] else Rest(frames, f)) + [f]
  }

  /** The oldest frames go while there are too many bytes; the last one stays. */
  function Trimmed(frames: seq<Queued>, maxBytes: nat): seq<Queued> {
    if Sum(frames) > maxBytes && |frames| > 1 then Trimmed(frames[1..], maxBytes) else frames
  }

  /** What stays is the longest end of the queue within the limit, or the newest frame alone. */
  lemma {:induction false} TrimmedIsLongest(frames: seq<Queued>, maxBytes: nat) returns (k: nat)
    requires frames != []
    ensures k < |frames| && Trimmed(frames, maxBytes) == frames[k..]
    ensures Sum(frames[k..]) <= maxBytes || k == |frames| - 1
    ensures forall j | 0 <= j < k :: Sum(frames[j..]) > maxBytes
  {
    if Sum(frames) > maxBytes && |frames| > 1 {
      var i := TrimmedIsLongest(frames[1..], maxBytes);
      k := i + 1;
      assert frames[1..][i..] == frames[k..];
      forall j | 0 <= j < k
        ensures Sum(frames[j..]) > maxBytes
      {
        assert j > 0 ==> frames[1..][j - 1..] == frames[j..];
        assert j == 0 ==> frames[j..] == frames;
      }
    } else {
      k := 0;
    }
  }

  /** The places, in the queue before, of the frames that a push leaves. */
  predicate PlacesOf(places: seq<nat>, frames: seq<Queued>, f: Queued) {
    && (forall i | 0 <= i < |places| :: places[i] < |frames|)
    && (forall i, j | 0 <= i < j < |places| :: places[i] < places[j])
    && (forall p: nat | p < |frames| ::
          p in places <==> f.frame.Delta? && !(frames[p].frame.Delta? && frames[p].frame.baseline == f.frame.baseline))
  }

  /** A push leaves, in their order, no frame at all before a keyframe, and before a delta every frame but the deltas on its own
      baseline; and the new frame comes last. */
  lemma {:induction false} PushedIs(frames: seq<Queued>, f: Queued) returns (places: seq<nat>)
    ensures PlacesOf(places, frames, f) && |Pushed(frames, f)| == |places| + 1 && Pushed(frames, f)[|places|] == f
    ensures forall i | 0 <= i < |places| :: Pushed(frames, f)[i] == frames[places[i]]
  {
    if f.frame.Keyframe? || frames == [] {
      places := [];
    } else {
      var init, n := frames[..|frames| - 1], |frames| - 1;
      places := PushedIs(init, f);
      ghost var before := places;
      if !Superseded(frames[n], f) {
        places := places + [n];
      }
      forall p: nat | p < |frames|
        ensures p in places <==> !(frames[p].frame.Delta? && frames[p].frame.baseline == f.frame.baseline)
      {
        if p < n {
          assert init[p] == frames[p] && (p in before <==> p in places);
        } else {
          assert p !in before;
        }
      }
    }
  }

  lemma {:induction false} SumConcat(a: seq<Queued>, b: seq<Queued>)
    ensures Sum(a + b) == Sum(a) + Sum(b)
  {
    if a == [] {
      assert a + b == b;
    } else {
      assert (a + b)[1..] == a[1..] + b;
      SumConcat(a[1..], b);
    }
  }

  class Queue {
    const maxBytes: nat
    var bytes: nat
    var resync: bool
    var frames: seq<Queued>

    /** The bytes are counted right, and exceed the limit only for a single frame. */
    predicate Valid()
      reads this
    {
      bytes == Sum(frames) && (bytes > maxBytes ==> |frames| == 1)
    }

    constructor (maxBytes: nat)
      ensures Valid() && frames == [] && !resync && this.maxBytes == maxBytes
    {
      this.maxBytes, bytes, resync, frames := maxBytes, 0, false, [];
    }

    method Push(f: Queued)
      requires Valid()
      modifies this
      ensures Valid() && frames == Trimmed(Pushed(old(frames), f), maxBytes)
      ensures resync == (old(resync) || frames != Pushed(old(frames), f))
    {
      if f.frame.Keyframe? {
        frames, bytes := [], 0;
      } else {
        Supersede(f);
      }
      SumConcat(frames, [f]);
      assert [f][1..] == [];
      frames, bytes := frames + [f], bytes + f.size;
      Trim();
    }

    /** Takes the superseded deltas out. */
    method Supersede(f: Queued)
      requires bytes == Sum(frames)
      modifies this`frames, this`bytes
      ensures frames == Rest(old(frames), f) && bytes == Sum(frames)
    {
      var existing, kept := 0, [];
      while existing < |frames|
        invariant 0 <= existing <= |frames| && frames == old(frames)
        invariant kept == Rest(frames[..existing], f)
        invariant bytes == Sum(kept) + Sum(frames[existing..])
      {
        var next := frames[existing];
        assert frames[..existing + 1][..existing] == frames[..existing];
        assert frames[existing..][1..] == frames[existing + 1..] && frames[existing..][0] == next;
        if Superseded(next, f) {
          bytes := bytes - next.size;
        } else {
          SumConcat(kept, [next]);
          assert [next][1..] == [];
          kept := kept + [next];
        }
        existing := existing + 1;
      }
      assert frames[..existing] == frames && frames[existing..] == [];
      frames := kept;
    }

    /** Drops the oldest frames of a queue that is too large; a new keyframe is then needed. */
    method Trim()
      requires bytes == Sum(frames)
      modifies this
      ensures Valid() && frames == Trimmed(old(frames), maxBytes)
      ensures resync == (old(resync) || frames != old(frames))
    {
      ghost var was := frames;
      while bytes > maxBytes && |frames| > 1
        invariant bytes == Sum(frames) && |frames| <= |was|
        invariant Trimmed(was, maxBytes) == Trimmed(frames, maxBytes)
        invariant resync == (old(resync) || |frames| < |was|) && (|frames| == |was| ==> frames == was)
        decreases |frames|
      {
        bytes := bytes - frames[0].size;
        frames := frames[1..];
        resync := true;
      }
    }

    method Pop() returns (frame: Option<Queued>)
      requires Valid()
      modifies this`frames, this`bytes
      ensures Valid()
      ensures frame == if old(frames) == [] then None else Some(old(frames)[0])
      ensures frames == if old(frames) == [] then [] else old(frames)[1..]
    {
      if frames == [] {
        return None;
      }
      frame := Some(frames[0]);
      bytes := bytes - frames[0].size;
      frames := frames[1..];
    }
  }

  // ---- What the client makes of the queue ----

  /** The replica after the queued frames, from what it was. */
  ghost function Drained(hash: Hasher, view: View, frames: seq<Queued>): View {
    if frames == [] then view else AfterFrame(hash, Drained(hash, view, frames[..|frames| - 1]), frames[|frames| - 1].frame)
  }

  function OpsOf(hash: Hasher, f: Queued): Ops {
    OpMap(FrameOps(hash, f.frame))
  }

  /** The operations of several deltas, later ones winning. */
  function MergedOps(hash: Hasher, frames: seq<Queued>): Ops {
    if frames == [] then map[] else MergedOps(hash, frames[..|frames| - 1]) + OpsOf(hash, frames[|frames| - 1])
  }

  predicate AllDeltas(frames: seq<Queued>) {
    forall i | 0 <= i < |frames| :: frames[i].frame.Delta?
  }

  lemma {:induction false} DeltasMerge(hash: Hasher, view: View, frames: seq<Queued>)
    requires AllDeltas(frames)
    ensures Drained(hash, view, frames) == Override(view, MergedOps(hash, frames))
  {
    if frames != [] {
      var init, last := frames[..|frames| - 1], frames[|frames| - 1];
      DeltasMerge(hash, view, init);
      OverrideTwice(view, MergedOps(hash, init), OpsOf(hash, last));
    }
  }

  lemma {:induction false} DrainedConcat(hash: Hasher, view: View, a: seq<Queued>, b: seq<Queued>)
    ensures Drained(hash, view, a + b) == Drained(hash, Drained(hash, view, a), b)
  {
    if b == [] {
      assert a + b == a;
    } else {
      assert (a + b)[..|a + b| - 1] == a + b[..|b| - 1];
      DrainedConcat(hash, view, a, b[..|b| - 1]);
    }
  }

  /** A keyframe can only come first, and no two deltas are on the same baseline. */
  predicate Shape(frames: seq<Queued>) {
    && (forall i | 0 < i < |frames| :: frames[i].frame.Delta?)
    && (forall i, j | 0 <= i < j < |frames| && frames[i].frame.Delta? :: frames[i].frame.baseline != frames[j].frame.baseline)
  }

  lemma {:induction false} RestWithout(frames: seq<Queued>, f: Queued, i: nat)
    requires Shape(frames) && i < |frames| && Superseded(frames[i], f)
    ensures Rest(frames, f) == frames[..i] + frames[i + 1..]
    decreases |frames|
  {
    var init := frames[..|frames| - 1];
    if i == |init| {
      RestAll(init, f);
    } else {
      assert !Superseded(frames[|init|], f);
      RestWithout(init, f, i);
    }
  }

  lemma {:induction false} RestAll(frames: seq<Queued>, f: Queued)
    requires forall i | 0 <= i < |frames| :: !Superseded(frames[i], f)
    ensures Rest(frames, f) == frames
  {
    if frames != [] {
      RestAll(frames[..|frames| - 1], f);
    }
  }

  lemma WithoutShape(frames: seq<Queued>, i: nat)
    requires Shape(frames) && i < |frames|
    ensures Shape(frames[..i] + frames[i + 1..])
  {
    var rest := frames[..i] + frames[i + 1..];
    forall j | 0 <= j < |rest|
      ensures rest[j] == frames[if j < i then j else j + 1]
    {
    }
  }

  lemma AppendedShape(frames: seq<Queued>, f: Queued)
    requires Shape(frames) && f.frame.Delta? && forall i | 0 <= i < |frames| :: !Superseded(frames[i], f)
    ensures Shape(frames + [f])
  {
  }

  lemma {:induction false} NoneSuperseded(frames: seq<Queued>, f: Queued)
    ensures forall i | 0 <= i < |Rest(frames, f)| :: !Superseded(Rest(frames, f)[i], f)
  {
    if frames != [] {
      NoneSuperseded(frames[..|frames| - 1], f);
    }
  }

  lemma PushedShape(frames: seq<Queued>, f: Queued)
    requires Shape(frames)
    ensures Shape(Pushed(frames, f))
  {
    if f.frame.Delta? {
      NoneSuperseded(frames, f);
      if i :| 0 <= i < |frames| && Superseded(frames[i], f) {
        RestWithout(frames, f, i);
        WithoutShape(frames, i);
      } else {
        RestAll(frames, f);
      }
      AppendedShape(Rest(frames, f), f);
    }
  }

  /** Nothing the superseded delta `d` says is missing: each of its operations is overtaken by a later frame or has no
      effect on what the client has before it. */
  ghost predicate Overtaken(hash: Hasher, before: View, d: Queued, later: seq<Queued>) {
    var ops := OpsOf(hash, d);
    forall w | w in ops && w !in MergedOps(hash, later) :: NoEffect(before, ops[w])
  }

  lemma SkipIff(hash: Hasher, before: View, d: Queued, later: seq<Queued>)
    requires d.frame.Delta? && AllDeltas(later)
    ensures Drained(hash, AfterFrame(hash, before, d.frame), later) == Drained(hash, before, later) <==> Overtaken(hash, before, d, later)
  {
    DeltasMerge(hash, AfterFrame(hash, before, d.frame), later);
    DeltasMerge(hash, before, later);
    OpMapContents(FrameOps(hash, d.frame));
    SkippedOpsMatterIff(before, OpsOf(hash, d), MergedOps(hash, later));
  }

  /** A keyframe makes everything before it pointless. */
  lemma KeyframeAlone(hash: Hasher, view: View, frames: seq<Queued>, f: Queued)
    requires f.frame.Keyframe?
    ensures Drained(hash, view, frames + [f]) == Drained(hash, view, [f])
  {
    DrainedConcat(hash, view, frames, [f]);
    assert [f][..0] == [];
  }

  /** Taking the delta at `i` out when `f` comes leaves the client with the same replica exactly if nothing it says is
      missing then. */
  lemma CoalescingIff(hash: Hasher, view: View, frames: seq<Queued>, f: Queued, i: nat)
    requires Shape(frames) && i < |frames| && Superseded(frames[i], f)
    ensures Drained(hash, view, Pushed(frames, f)) == Drained(hash, view, frames + [f])
       <==> Overtaken(hash, Drained(hash, view, frames[..i]), frames[i], frames[i + 1..] + [f])
  {
    SplitAt(frames, f, i);
    CoalescedAround(hash, view, frames[..i], frames[i], frames[i + 1..] + [f]);
  }

  lemma SplitAt(frames: seq<Queued>, f: Queued, i: nat)
    requires Shape(frames) && i < |frames| && Superseded(frames[i], f)
    ensures var a, d, later := frames[..i], frames[i], frames[i + 1..] + [f];
            Pushed(frames, f) == a + later && frames + [f] == a + ([d] + later) && AllDeltas(later)
  {
    RestWithout(frames, f, i);
  }

  lemma CoalescedAround(hash: Hasher, view: View, a: seq<Queued>, d: Queued, later: seq<Queued>)
    requires d.frame.Delta? && AllDeltas(later)
    ensures Drained(hash, view, a + later) == Drained(hash, view, a + ([d] + later)) <==> Overtaken(hash, Drained(hash, view, a), d, later)
  {
    DrainedAround(hash, view, a, d, later);
    SkipIff(hash, Drained(hash, view, a), d, later);
  }

  lemma DrainedAround(hash: Hasher, view: View, a: seq<Queued>, d: Queued, later: seq<Queued>)
    ensures var before := Drained(hash, view, a);
            && Drained(hash, view, a + later) == Drained(hash, before, later)
            && Drained(hash, view, a + ([d] + later)) == Drained(hash, AfterFrame(hash, before, d.frame), later)
  {
    DrainedConcat(hash, view, a, later);
    DrainedConcat(hash, view, a, [d] + later);
    DrainedConcat(hash, Drained(hash, view, a), [d], later);
    assert [d][..0] == [];
  }

  /** Every WID of a delta that `f` supersedes is one of `f`. */
  ghost predicate Covers(hash: Hasher, f: Queued, frames: seq<Queued>) {
    forall i | 0 <= i < |frames| && Superseded(frames[i], f) :: OpsOf(hash, frames[i]).Keys <= OpsOf(hash, f).Keys
  }

  lemma LastOps(hash: Hasher, frames: seq<Queued>, f: Queued)
    ensures OpsOf(hash, f).Keys <= MergedOps(hash, frames + [f]).Keys
  {
    assert (frames + [f])[..|frames|] == frames;
  }

  /** A push that covers what it supersedes keeps the meaning of the queue. */
  lemma PushKeepsMeaning(hash: Hasher, view: View, frames: seq<Queued>, f: Queued)
    requires Shape(frames) && Covers(hash, f, frames)
    ensures Drained(hash, view, Pushed(frames, f)) == Drained(hash, view, frames + [f])
  {
    if f.frame.Keyframe? {
      KeyframeAlone(hash, view, frames, f);
      assert [] + [f] == [f];
    } else if i :| 0 <= i < |frames| && Superseded(frames[i], f) {
      CoalescingIff(hash, view, frames, f, i);
      LastOps(hash, frames[i + 1..], f);
    } else {
      RestAll(frames, f);
    }
  }

  const BEFORE: View := map[1 := Entry(1, 0)]
  const OLDER := Queued(Delta(2, 1, [], [EntityFrame(1, 1, ProjectedEntity([0], OnChange, 0))], []), 1)
  const NEWER := Queued(Delta(3, 1, [EntityFrame(2, 2, ProjectedEntity([], OnChange, 0))], [], []), 1)

  lemma ExampleOps(hash: Hasher, update: SentOp, enter: SentOp)
    requires update == SentOp(Update, 1, 1, hash(ProjectedEntity([0], OnChange, 0)))
    requires enter == SentOp(Enter, 2, 2, hash(ProjectedEntity([], OnChange, 0)))
    ensures FrameOps(hash, OLDER.frame) == [update] && FrameOps(hash, NEWER.frame) == [enter]
  {
  }

  /** Two deltas on one baseline about different entities: the newer one takes the older one's place, and its update is
      never sent. */
  lemma CoalescingMayLose(hash: Hasher)
    requires hash(ProjectedEntity([0], OnChange, 0)) != 0
    ensures Superseded(OLDER, NEWER) && Shape([OLDER])
    ensures Drained(hash, BEFORE, Pushed([OLDER], NEWER)) != Drained(hash, BEFORE, [OLDER] + [NEWER])
  {
    var update := SentOp(Update, 1, 1, hash(ProjectedEntity([0], OnChange, 0)));
    var enter := SentOp(Enter, 2, 2, hash(ProjectedEntity([], OnChange, 0)));
    ExampleOps(hash, update, enter);
    SingleOp(update);
    SingleOp(enter);
    assert [OLDER][..0] == [] && [OLDER][1..] + [NEWER] == [NEWER] && [NEWER][..0] == [];
    assert MergedOps(hash, [NEWER]) == map[] + OpsOf(hash, NEWER);
    assert 1 in OpsOf(hash, OLDER) && 1 !in MergedOps(hash, [NEWER]) && !NoEffect(BEFORE, OpsOf(hash, OLDER)[1]);
    CoalescingIff(hash, BEFORE, [OLDER], NEWER, 0);
  }

  // ---- Whole runs ----

  datatype Event = Push(f: Queued) | Pop

  /** The queue, what the client has made of the frames it got, and all frames ever pushed. */
  datatype Line = Line(frames: seq<Queued>, client: View, pushed: seq<Queued>)

  ghost predicate Step(hash: Hasher, maxBytes: nat, s: Line, e: Event, t: Line) {
    match e
    case Push(f) => t == s.(frames := Trimmed(Pushed(s.frames, f), maxBytes), pushed := s.pushed + [f])
    case Pop =>
      t == if s.frames == [] then s else s.(frames := s.frames[1..], client := AfterFrame(hash, s.client, s.frames[0].frame))
  }

  ghost predicate IsRun(hash: Hasher, maxBytes: nat, states: seq<Line>, events: seq<Event>) {
    && |states| == |events| + 1 && states[0] == Line([], map[], [])
    && forall i | 0 <= i < |events| :: Step(hash, maxBytes, states[i], events[i], states[i + 1])
  }

  /** No push overflows the queue, and each covers what it supersedes. */
  ghost predicate Careful(hash: Hasher, maxBytes: nat, s: Line, e: Event) {
    e.Push? ==> Sum(Pushed(s.frames, e.f)) <= maxBytes && Covers(hash, e.f, s.frames)
  }

  lemma PopKeepsMeaning(hash: Hasher, client: View, frames: seq<Queued>)
    requires frames != []
    ensures Drained(hash, AfterFrame(hash, client, frames[0].frame), frames[1..]) == Drained(hash, client, frames)
  {
    assert frames == [frames[0]] + frames[1..];
    DrainedConcat(hash, client, [frames[0]], frames[1..]);
    assert [frames[0]][..0] == [];
  }

  /** In every run of pushes and pops in which no push overflows and each covers what it supersedes: a client that gets
      what is left in the queue ends with the replica of one that got every frame ever pushed. */
  lemma {:induction false} QueueKeepsMeaning(hash: Hasher, maxBytes: nat, states: seq<Line>, events: seq<Event>)
    requires IsRun(hash, maxBytes, states, events)
    requires forall i | 0 <= i < |events| :: Careful(hash, maxBytes, states[i], events[i])
    ensures var s := states[|events|];
            Shape(s.frames) && Drained(hash, s.client, s.frames) == Drained(hash, map[], s.pushed)
  {
    if events != [] {
      var n := |events| - 1;
      QueueKeepsMeaning(hash, maxBytes, states[..n + 1], events[..n]);
      StepKeepsMeaning(hash, maxBytes, states[n], events[n], states[n + 1]);
    }
  }

  lemma StepKeepsMeaning(hash: Hasher, maxBytes: nat, s: Line, e: Event, t: Line)
    requires Step(hash, maxBytes, s, e, t) && Careful(hash, maxBytes, s, e)
    requires Shape(s.frames) && Drained(hash, s.client, s.frames) == Drained(hash, map[], s.pushed)
    ensures Shape(t.frames) && Drained(hash, t.client, t.frames) == Drained(hash, map[], t.pushed)
  {
    match e
    case Push(f) =>
      PushedShape(s.frames, f);
      PushKeepsMeaning(hash, s.client, s.frames, f);
      DrainedConcat(hash, s.client, s.frames, [f]);
      DrainedConcat(hash, map[], s.pushed, [f]);
    case Pop =>
      if s.frames != [] {
        PopKeepsMeaning(hash, s.client, s.frames);
      }
  }
}
