/** Commands wait in order of arrival until their tick and are then applied to the world. */
module CommandBuffer {
  import opened Integers
  import opened WorldModel
  import opened WorldEffects
  import opened Sorting

  datatype Payload = Create(created: Object) | Destroy(id: nat) | Assign(id: nat, key: Text, value: PropertyValue)

  datatype Meta = Meta(ingress: nat, expectedVersion: nat, durableLsn: nat)

  datatype Command = Command(sequence: nat, target: nat, payload: Payload, meta: Meta)

  datatype Reason = NoReason | MissingObject | VersionConflict | ApplyFailed

  datatype Outcome = Outcome(sequence: nat, ingress: nat, applied: bool, reason: Reason, durableLsn: nat)

  /** The world after a list of commands, their outcomes, and those left for a later tick. */
  datatype Applied = Applied(world: WorldValue, outcomes: seq<Outcome>, deferred: seq<Command>)

  datatype Buffer = Buffer(next: nat, included: nat, pending: seq<Command>)

  const FIRST_BUFFER := Buffer(1, 0, [])

  /** The optimistic check, made when the command is applied and only for property assignments. */
  function Precheck(w: WorldValue, c: Command): Reason {
    if c.meta.expectedVersion == 0 || !c.payload.Assign? then NoReason
    else if c.payload.id !in w.objects then MissingObject
    else if w.objects[c.payload.id].version != c.meta.expectedVersion then VersionConflict
    else NoReason
  }

  function Perform(w: WorldValue, p: Payload): (WorldValue, bool) {
    match p
    case Create(o) => WorldModel.Insert(w, o)
    case Destroy(id) => Erase(w, id)
    case Assign(id, key, value) => SetProperty(w, id, key, value)
  }

  function Execute(w: WorldValue, c: Command): (WorldValue, Outcome) {
    var reason := Precheck(w, c);
    var (w', applied) := if reason == NoReason then Perform(w, c.payload) else (w, false);
    (w', Outcome(c.sequence, c.meta.ingress, applied, if reason == NoReason && !applied then ApplyFailed else reason, c.meta.durableLsn))
  }

  /** Executes what is due at `tick`, in the order given. */
  function ApplyAll(w: WorldValue, commands: seq<Command>, tick: nat): Applied {
    if commands == [] then Applied(w, [], [])
    else
      var before, c := ApplyAll(w, commands[..|commands| - 1], tick), commands[|commands| - 1];
      if c.target > tick then before.(deferred := before.deferred + [c])
      else
        var (w', outcome) := Execute(before.world, c);
        Applied(w', before.outcomes + [outcome], before.deferred)
  }

  predicate BySequence(a: Command, b: Command) {
    a.sequence <= b.sequence
  }

  /** A snapshot that can be restored: sequence numbers are set, below the next one, and not repeated. */
  predicate Restorable(b: Buffer) {
    var sorted := SortBy(BySequence, b.pending);
    && b.next != 0
    && (forall i | 0 <= i < |sorted| :: 0 < sorted[i].sequence < b.next)
    && (forall i | 0 < i < |sorted| :: sorted[i].sequence != sorted[i - 1].sequence)
  }

  predicate Apart(s: seq<Command>) {
    forall i, j | 0 <= i < j < |s| :: s[i].sequence != s[j].sequence
  }

  lemma {:induction false} ApartOnce(s: seq<Command>, c: Command)
    requires Apart(s)
    ensures multiset(s)[c] <= 1
  {
    if s != [] {
      var init, last := s[..|s| - 1], s[|s| - 1];
      ApartOnce(init, c);
      assert s == init + [last];
      assert last !in init;
    }
  }

  /** Being given once each does not depend on the order. */
  lemma ApartCarries(a: seq<Command>, b: seq<Command>)
    requires multiset(a) == multiset(b) && Apart(a)
    ensures Apart(b)
  {
    forall i, j | 0 <= i < j < |b|
      ensures b[i].sequence != b[j].sequence
    {
      assert b[i] in multiset(b) && b[j] in multiset(b);
      assert b[i] in a && b[j] in a;
      if b[i] == b[j] {
        OccursTwice(b, i, j);
        ApartOnce(a, b[i]);
      }
    }
  }

  /** Whatever the order of its commands, a snapshot can be restored exactly if its sequence numbers are set, below the next one
      and given once each. */
  lemma RestorableIff(b: Buffer)
    ensures Restorable(b) <==> b.next != 0 && (forall c | c in b.pending :: 0 < c.sequence < b.next) && Apart(b.pending)
  {
    var sorted := SortBy(BySequence, b.pending);
    SortBySorted(BySequence, b.pending);
    SameMembers(sorted, b.pending);
    if Restorable(b) {
      AdjacentApart(sorted);
      ApartCarries(sorted, b.pending);
    } else if Apart(b.pending) {
      ApartCarries(b.pending, sorted);
    }
  }

  lemma SameMembers(a: seq<Command>, b: seq<Command>)
    requires multiset(a) == multiset(b)
    ensures forall c :: c in a <==> c in b
  {
    assert forall c :: c in a <==> c in multiset(a);
    assert forall c :: c in b <==> c in multiset(b);
  }

  lemma AdjacentApart(s: seq<Command>)
    requires Sorted(BySequence, s) && forall i | 0 < i < |s| :: s[i].sequence != s[i - 1].sequence
    ensures Apart(s)
  {
    forall i, j | 0 <= i < j < |s|
      ensures s[i].sequence != s[j].sequence
    {
      assert BySequence(s[i], s[i + 1]) && s[i + 1].sequence != s[i + 1 - 1].sequence;
      assert i + 1 < j ==> BySequence(s[i + 1], s[j]);
    }
  }

  predicate InArrivalOrder(b: Buffer) {
    && b.next != 0
    && (forall i | 0 <= i < |b.pending| :: 0 < b.pending[i].sequence < b.next)
    && (forall i, j | 0 <= i < j < |b.pending| :: b.pending[i].sequence < b.pending[j].sequence)
  }

  // ---- What execution means ----

  /** What a creation does: the object enters where nothing is yet. */
  ghost predicate Created(a: WorldValue, o: Object, applied: bool, b: WorldValue) {
    && (applied <==> o.id > 0 && o.version > 0 && o.id !in a.objects)
    && (applied ==> o.id in b.objects && Entered(o, b.objects[o.id], b.nextRevision) && OthersKept(a.objects, b.objects, o.id)
                    && b.eraseRevision == a.eraseRevision && b.nextRevision == (a.nextRevision + 1) % U64)
  }

  /** What a destruction does: the object goes, if it is there. */
  ghost predicate Destroyed(a: WorldValue, id: nat, applied: bool, b: WorldValue) {
    && (applied <==> id in a.objects)
    && (applied ==> id !in b.objects && OthersKept(a.objects, b.objects, id) && b.nextRevision == a.nextRevision
                    && b.eraseRevision == (a.eraseRevision + 1) % U64)
  }

  /** What an assignment does: with an expected version it is for that version only; the reasons say what was amiss. */
  ghost predicate Assigned(a: WorldValue, id: nat, key: Text, value: PropertyValue, expected: nat, applied: bool, reason: Reason, b: WorldValue) {
    && (reason == MissingObject <==> expected != 0 && id !in a.objects)
    && (reason == VersionConflict <==> expected != 0 && id in a.objects && a.objects[id].version != expected)
    && (applied <==> id in a.objects && a.objects[id].lifecycle != Retired && (expected == 0 || a.objects[id].version == expected))
    && (applied ==> id in b.objects && PropertyPut(a.objects[id], b.objects[id], key, value) && OthersKept(a.objects, b.objects, id)
                    && CountersKept(a, b))
  }

  /** The outcome is the command's own, and the world changed as it says: not at all, but for a revision number, if the command
      was not applied. */
  ghost predicate Executed(a: WorldValue, c: Command, o: Outcome, b: WorldValue) {
    && o.sequence == c.sequence && o.ingress == c.meta.ingress && o.durableLsn == c.meta.durableLsn
    && (o.applied <==> o.reason == NoReason)
    && (!o.applied ==> b.objects == a.objects && b.eraseRevision == a.eraseRevision)
    && match c.payload
       case Create(created) => Created(a, created, o.applied, b) && (o.applied || o.reason == ApplyFailed)
       case Destroy(id) => Destroyed(a, id, o.applied, b) && (o.applied || o.reason == ApplyFailed)
       case Assign(id, key, value) => Assigned(a, id, key, value, c.meta.expectedVersion, o.applied, o.reason, b)
  }

  /** Each command executed in turn, from `w` to `w'`: one outcome each. */
  ghost predicate AllExecuted(w: WorldValue, due: seq<Command>, outcomes: seq<Outcome>, worlds: seq<WorldValue>, w': WorldValue) {
    && |outcomes| == |due| && |worlds| == |due| + 1 && worlds[0] == w && worlds[|due|] == w'
    && forall i | 0 <= i < |due| :: Executed(worlds[i], due[i], outcomes[i], worlds[i + 1])
  }

  predicate SplitAt(due: seq<Command>, waiting: seq<Command>, tick: nat) {
    && (forall i | 0 <= i < |due| :: due[i].target <= tick)
    && (forall i | 0 <= i < |waiting| :: waiting[i].target > tick)
  }

  lemma ExecuteEffect(w: WorldValue, c: Command)
    ensures Executed(w, c, Execute(w, c).1, Execute(w, c).0)
  {
    match c.payload
    case Create(o) => InsertEffect(w, o);
    case Destroy(id) => EraseEffect(w, id);
    case Assign(id, key, value) => SetPropertyEffect(w, id, key, value);
  }

  lemma OneMoreExecuted(w: WorldValue, due: seq<Command>, outcomes: seq<Outcome>, worlds: seq<WorldValue>, w': WorldValue, c: Command)
    requires AllExecuted(w, due, outcomes, worlds, w')
    ensures var (t, o) := Execute(w', c); AllExecuted(w, due + [c], outcomes + [o], worlds + [t], t)
  {
    ExecuteEffect(w', c);
  }

  predicate NoneAfter(s: seq<Command>, bound: nat) {
    forall i | 0 <= i < |s| :: s[i].sequence <= bound
  }

  /** An ordered list split into what is due and what waits, each in its order. */
  predicate Split(commands: seq<Command>, due: seq<Command>, waiting: seq<Command>, tick: nat) {
    && multiset(due) + multiset(waiting) == multiset(commands) && SplitAt(due, waiting, tick)
    && Sorted(BySequence, due) && Sorted(BySequence, waiting)
    && (commands != [] ==> NoneAfter(due, commands[|commands| - 1].sequence) && NoneAfter(waiting, commands[|commands| - 1].sequence))
    && (commands == [] ==> due == waiting == [])
  }

  lemma SplitNext(init: seq<Command>, c: Command, due: seq<Command>, waiting: seq<Command>, tick: nat)
    requires Sorted(BySequence, init + [c]) && Split(init, due, waiting, tick)
    ensures if c.target <= tick then Split(init + [c], due + [c], waiting, tick) else Split(init + [c], due, waiting + [c], tick)
  {
    var all := init + [c];
    if init != [] {
      assert BySequence(all[|init| - 1], all[|init|]);
    }
  }

  /** The due commands of an ordered list are executed one by one in its order, and the others wait in its order. */
  lemma {:induction false} DueAreExecuted(w: WorldValue, commands: seq<Command>, tick: nat) returns (due: seq<Command>, worlds: seq<WorldValue>)
    requires Sorted(BySequence, commands)
    ensures var r := ApplyAll(w, commands, tick); Split(commands, due, r.deferred, tick) && AllExecuted(w, due, r.outcomes, worlds, r.world)
  {
    if commands == [] {
      due, worlds := [], [w];
    } else {
      var init, c := commands[..|commands| - 1], commands[|commands| - 1];
      assert commands == init + [c];
      due, worlds := DueAreExecuted(w, init, tick);
      var before := ApplyAll(w, init, tick);
      SplitNext(init, c, due, before.deferred, tick);
      if c.target <= tick {
        OneMoreExecuted(w, due, before.outcomes, worlds, before.world, c);
        due, worlds := due + [c], worlds + [Execute(before.world, c).0];
      }
    }
  }

  /** Adding a command; the sequence space refuses more once it has wrapped to zero. */
  function Enqueued(b: Buffer, target: nat, payload: Payload, meta: Meta): Buffer {
    if b.next == 0 then b
    else Buffer(Bump(b.next), if meta.durableLsn > b.included then meta.durableLsn else b.included,
                b.pending + [Command(b.next, target, payload, meta)])
  }

  class CommandQueue {
    var next: nat
    var included: nat
    var pending: seq<Command>

    function State(): Buffer
      reads this
    {
      Buffer(next, included, pending)
    }

    constructor (first: nat)
      ensures State() == Buffer(first, 0, [])
    {
      next, included, pending := first, 0, [];
    }

    method Enqueue(target: nat, payload: Payload, meta: Meta) returns (sequence: nat)
      modifies this
      ensures State() == Enqueued(old(State()), target, payload, meta)
      ensures sequence == old(next)
    {
      sequence := next;
      if next == 0 {
        return;
      }
      next := Bump(next);
      included := if meta.durableLsn > included then meta.durableLsn else included;
      pending := pending + [Command(sequence, target, payload, meta)];
    }

    /** Executes the due commands in sequence order; the others stay. */
    method Apply(world: WorldValue, tick: nat)
      returns (world': WorldValue, outcomes: seq<Outcome>, ghost due: seq<Command>, ghost worlds: seq<WorldValue>)
      modifies this`pending
      ensures Applied(world', outcomes, pending) == ApplyAll(world, SortBy(BySequence, old(pending)), tick)
      ensures multiset(due) + multiset(pending) == multiset(old(pending)) && SplitAt(due, pending, tick)
      ensures Sorted(BySequence, due) && Sorted(BySequence, pending)
      ensures AllExecuted(world, due, outcomes, worlds, world')
    {
      var sorted := SortBy(BySequence, pending);
      var deferred: seq<Command> := [];
      world', outcomes := world, [];
      for i := 0 to |sorted|
        invariant Applied(world', outcomes, deferred) == ApplyAll(world, sorted[..i], tick)
      {
        assert sorted[..i + 1][..i] == sorted[..i];
        var c := sorted[i];
        if c.target > tick {
          deferred := deferred + [c];
        } else {
          var reason, applied := Precheck(world', c), false;
          if reason == NoReason {
            var done := Perform(world', c.payload);
            world', applied := done.0, done.1;
            if !applied {
              reason := ApplyFailed;
            }
          }
          outcomes := outcomes + [Outcome(c.sequence, c.meta.ingress, applied, reason, c.meta.durableLsn)];
        }
      }
      assert sorted[..|sorted|] == sorted;
      SortBySorted(BySequence, pending);
      due, worlds := DueAreExecuted(world, sorted, tick);
      pending := deferred;
    }

    method Snapshot() returns (snapshot: Buffer)
      ensures snapshot == State()
    {
      snapshot := Buffer(next, included, pending);
    }

    method Restore(snapshot: Buffer) returns (ok: bool)
      modifies this
      ensures ok == Restorable(snapshot)
      ensures State() == if ok then snapshot.(pending := SortBy(BySequence, snapshot.pending)) else old(State())
    {
      if snapshot.next == 0 {
        return false;
      }
      var sorted := SortBy(BySequence, snapshot.pending);
      var previous := 0;
      for i := 0 to |sorted|
        invariant forall j | 0 <= j < i :: 0 < sorted[j].sequence < snapshot.next
        invariant forall j | 0 < j < i :: sorted[j].sequence != sorted[j - 1].sequence
        invariant previous == if i == 0 then 0 else sorted[i - 1].sequence
      {
        var sequence := sorted[i].sequence;
        if sequence == 0 || sequence >= snapshot.next || sequence == previous {
          return false;
        }
        previous := sequence;
      }
      next, included, pending := snapshot.next, snapshot.included, sorted;
      ok := true;
    }
  }

  // ---- Order of arrival ----

  lemma {:induction false} InsertLast<T>(le: (T, T) -> bool, s: seq<T>, x: T)
    requires forall i | 0 <= i < |s| :: !le(x, s[i])
    ensures Sorting.Insert(le, s, x) == s + [x]
  {
    if s != [] {
      InsertLast(le, s[1..], x);
    }
  }

  /** What arrived in order is sorted already. */
  lemma {:induction false} ArrivalOrderSorted(s: seq<Command>)
    requires forall i, j | 0 <= i < j < |s| :: s[i].sequence < s[j].sequence
    ensures SortBy(BySequence, s) == s
  {
    if s != [] {
      ArrivalOrderSorted(s[..|s| - 1]);
      InsertLast(BySequence, s[..|s| - 1], s[|s| - 1]);
    }
  }

  /** A buffer filled by arrivals can be restored from its snapshot, to itself. */
  lemma SnapshotRestores(b: Buffer)
    requires InArrivalOrder(b)
    ensures Restorable(b) && b.(pending := SortBy(BySequence, b.pending)) == b
  {
    ArrivalOrderSorted(b.pending);
  }

  predicate Waiting(d: seq<Command>, tick: nat, next: nat) {
    forall i | 0 <= i < |d| :: 0 < d[i].sequence < next && d[i].target > tick
  }

  predicate Increasing(d: seq<Command>) {
    forall i, j | 0 <= i < j < |d| :: d[i].sequence < d[j].sequence
  }

  lemma {:induction false} DeferredBounds(w: WorldValue, commands: seq<Command>, tick: nat, next: nat)
    requires forall i | 0 <= i < |commands| :: 0 < commands[i].sequence < next
    ensures Waiting(ApplyAll(w, commands, tick).deferred, tick, next)
  {
    if commands != [] {
      DeferredBounds(w, commands[..|commands| - 1], tick, next);
    }
  }

  /** What waits is still in order of arrival. */
  lemma {:induction false} DeferredInOrder(w: WorldValue, commands: seq<Command>, tick: nat)
    requires Increasing(commands) && forall i | 0 <= i < |commands| :: 0 < commands[i].sequence
    ensures Increasing(ApplyAll(w, commands, tick).deferred)
  {
    if commands != [] {
      var init, c := commands[..|commands| - 1], commands[|commands| - 1];
      DeferredInOrder(w, init, tick);
      DeferredBounds(w, init, tick, c.sequence);
    }
  }

  /** Commands that are not due change nothing and all wait. */
  lemma {:induction false} NotDueWaits(w: WorldValue, a: seq<Command>, b: seq<Command>, tick: nat)
    requires forall i | 0 <= i < |b| :: b[i].target > tick
    ensures var r := ApplyAll(w, a, tick); ApplyAll(w, a + b, tick) == r.(deferred := r.deferred + b)
  {
    if b == [] {
      assert a + b == a;
    } else {
      var init := b[..|b| - 1];
      assert (a + b)[..|a + b| - 1] == a + init;
      NotDueWaits(w, a, init, tick);
      assert init + [b[|b| - 1]] == b;
    }
  }
}
