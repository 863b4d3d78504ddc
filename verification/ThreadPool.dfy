/** The thread pool: workers and the calling thread claim task indices from one counter, under every
    interleaving of their atomic steps. */
module ThreadPool {

  /** A worker waits for an epoch it has not seen, or serves the batch it copied on entering. */
  datatype Worker =
    | Waiting(seen: nat)
    | Claiming(epoch: nat, job: nat, count: nat)
    | Working(epoch: nat, job: nat, count: nat, task: nat)
    | Leaving(epoch: nat)

  datatype Caller = Outside | Calling(count: nat) | Running(count: nat, task: nat) | Awaiting

  /** A call of a job: which batch's function, on which index. */
  type Call = (nat, nat)

  /** `job` is the function installed, named by its batch (zero: none). `counts` are the sizes of the batches
      so far; `started` and `finished` are the calls made. */
  datatype Pool = Pool(
    workers: seq<Worker>, caller: Caller, epoch: nat, job: nat, count: nat, next: nat, active: nat, entered: nat,
    counts: seq<nat>, started: multiset<Call>, finished: multiset<Call>)

  datatype Event =
    | Run(count: nat)
    | CallerClaims
    | CallerFinishes
    | Return
    | Enter(i: nat)
    | Claim(i: nat)
    | Finish(i: nat)
    | Leave(i: nat)

  function Initial(n: nat): Pool {
    Pool(seq(n, i => Waiting(0)), Outside, 0, 0, 0, 0, 0, 0, [], multiset{}, multiset{})
  }

  /** Submitting returns at once, without running anything, when there is no worker or no task. */
  function Submit(s: Pool, count: nat): Pool {
    if s.workers == [] || count == 0 then s
    else s.(caller := Calling(count), job := s.epoch + 1, count := count, next := 0, entered := 0, epoch := s.epoch + 1,
            counts := s.counts + [count])
  }

  predicate BatchOver(s: Pool) {
    s.entered == |s.workers| && s.active == 0
  }

  ghost predicate Step(s: Pool, e: Event, t: Pool) {
    match e
    case Run(count) => s.caller.Outside? && t == Submit(s, count)
    case CallerClaims =>
      && s.caller.Calling?
      && t == if s.next < s.caller.count
              then s.(next := s.next + 1, caller := Running(s.caller.count, s.next), started := s.started + multiset{(s.job, s.next)})
              else s.(next := s.next + 1, caller := Awaiting)
    case CallerFinishes =>
      && s.caller.Running?
      && t == s.(caller := Calling(s.caller.count), finished := s.finished + multiset{(s.job, s.caller.task)})
    case Return => s.caller.Awaiting? && BatchOver(s) && t == s.(caller := Outside, job := 0)
    case Enter(i) =>
      && i < |s.workers| && s.workers[i].Waiting? && s.workers[i].seen != s.epoch
      && t == s.(workers := s.workers[i := Claiming(s.epoch, s.job, s.count)], entered := s.entered + 1, active := s.active + 1)
    case Claim(i) =>
      && i < |s.workers| && s.workers[i].Claiming?
      && var w := s.workers[i];
         t == if s.next < w.count
              then s.(next := s.next + 1, workers := s.workers[i := Working(w.epoch, w.job, w.count, s.next)],
                      started := s.started + multiset{(w.job, s.next)})
              else s.(next := s.next + 1, workers := s.workers[i := Leaving(w.epoch)])
    case Finish(i) =>
      && i < |s.workers| && s.workers[i].Working?
      && var w := s.workers[i];
         t == s.(workers := s.workers[i := Claiming(w.epoch, w.job, w.count)], finished := s.finished + multiset{(w.job, w.task)})
    case Leave(i) =>
      && i < |s.workers| && s.workers[i].Leaving? && s.active > 0
      && t == s.(workers := s.workers[i := Waiting(s.workers[i].epoch)], active := s.active - 1)
  }

  ghost predicate IsRun(n: nat, states: seq<Pool>, events: seq<Event>) {
    && |states| == |events| + 1
    && states[0] == Initial(n)
    && forall i | 0 <= i < |events| :: Step(states[i], events[i], states[i + 1])
  }

  // ---- Counting workers and running calls ----

  function Busy(w: Worker): nat {
    if w.Waiting? then 0 else 1
  }

  function BusyCount(ws: seq<Worker>): nat {
    if ws == [] then 0 else Busy(ws[0]) + BusyCount(ws[1..])
  }

  function EpochOf(w: Worker): nat {
    if w.Waiting? then w.seen else w.epoch
  }

  function SeenCount(ws: seq<Worker>, epoch: nat): nat {
    if ws == [] then 0 else (if EpochOf(ws[0]) == epoch then 1 else 0) + SeenCount(ws[1..], epoch)
  }

  function Makes(w: Worker, c: Call): nat {
    if w.Working? && (w.job, w.task) == c then 1 else 0
  }

  /** How many workers are inside the call `c`. */
  function Inside(ws: seq<Worker>, c: Call): nat {
    if ws == [] then 0 else Makes(ws[0], c) + Inside(ws[1..], c)
  }

  lemma {:induction false} OneChanges(ws: seq<Worker>, i: nat, w: Worker, epoch: nat)
    requires i < |ws|
    ensures BusyCount(ws[i := w]) + Busy(ws[i]) == BusyCount(ws) + Busy(w)
    ensures SeenCount(ws[i := w], epoch) + (if EpochOf(ws[i]) == epoch then 1 else 0) ==
            SeenCount(ws, epoch) + if EpochOf(w) == epoch then 1 else 0
  {
    if i == 0 {
      assert ws[0 := w][1..] == ws[1..];
    } else {
      OneChanges(ws[1..], i - 1, w, epoch);
      assert ws[i := w][1..] == ws[1..][i - 1 := w];
    }
  }

  lemma {:induction false} InsideChanges(ws: seq<Worker>, i: nat, w: Worker, c: Call)
    requires i < |ws|
    ensures Inside(ws[i := w], c) + Makes(ws[i], c) == Inside(ws, c) + Makes(w, c)
  {
    if i == 0 {
      assert ws[0 := w][1..] == ws[1..];
    } else {
      InsideChanges(ws[1..], i - 1, w, c);
      assert ws[i := w][1..] == ws[1..][i - 1 := w];
    }
  }

  lemma {:induction false} NobodyInside(ws: seq<Worker>, c: Call)
    requires forall i | 0 <= i < |ws| :: ws[i].Waiting?
    ensures BusyCount(ws) == 0 && Inside(ws, c) == 0
  {
    if ws != [] {
      NobodyInside(ws[1..], c);
    }
  }

  lemma {:induction false} CountsTell(ws: seq<Worker>, epoch: nat)
    ensures SeenCount(ws, epoch) <= |ws|
    ensures SeenCount(ws, epoch) == |ws| ==> forall i | 0 <= i < |ws| :: EpochOf(ws[i]) == epoch
    ensures (forall i | 0 <= i < |ws| :: EpochOf(ws[i]) != epoch) ==> SeenCount(ws, epoch) == 0
    ensures BusyCount(ws) == 0 ==> forall i | 0 <= i < |ws| :: ws[i].Waiting?
    ensures forall i | 0 <= i < |ws| && !ws[i].Waiting? :: BusyCount(ws) > 0
  {
    if ws != [] {
      CountsTell(ws[1..], epoch);
      assert forall i | 0 < i < |ws| :: ws[i] == ws[1..][i - 1];
    }
  }

  function CallerMakes(s: Pool, c: Call): nat {
    if s.caller.Running? && (s.job, s.caller.task) == c then 1 else 0
  }

  // ---- The invariant ----

  /** A worker not waiting serves the current batch, with its function and its size. */
  ghost predicate WorkerOk(s: Pool, w: Worker) {
    match w
    case Waiting(seen) => seen == s.epoch || (seen + 1 == s.epoch && !s.caller.Outside?)
    case Claiming(epoch, job, count) => epoch == s.epoch == job && count == s.count
    case Working(epoch, job, count, _) => epoch == s.epoch == job && count == s.count
    case Leaving(epoch) => epoch == s.epoch && s.next >= s.count
  }

  ghost predicate CallerOk(s: Pool) {
    match s.caller
    case Outside => s.active == 0 && (s.epoch > 0 ==> s.next >= s.count)
    case Calling(count) => s.epoch == s.job > 0 && count == s.count
    case Running(count, _) => s.epoch == s.job > 0 && count == s.count
    case Awaiting => s.epoch == s.job > 0 && s.next >= s.count
  }

  /** How often the call of batch `b` on index `i` has been made: once, for each index claimed. */
  function Expected(s: Pool, b: nat, i: nat): nat {
    if b < 1 || b > |s.counts| || i >= s.counts[b - 1] then 0
    else if b < s.epoch || i < s.next then 1 else 0
  }

  ghost predicate Inv(s: Pool) {
    && |s.counts| == s.epoch && (s.epoch > 0 ==> s.counts[s.epoch - 1] == s.count)
    && (forall i | 0 <= i < |s.workers| :: WorkerOk(s, s.workers[i]))
    && CallerOk(s)
    && s.active == BusyCount(s.workers)
    && (s.epoch > 0 ==> s.entered == SeenCount(s.workers, s.epoch))
    && (forall c :: s.started[c] == s.finished[c] + CallerMakes(s, c) + Inside(s.workers, c))
    && (forall c :: s.started[c] == Expected(s, c.0, c.1))
  }

  lemma InitialHolds(n: nat)
    ensures Inv(Initial(n))
  {
    forall c
      ensures Inside(Initial(n).workers, c) == 0
    {
      NobodyInside(Initial(n).workers, c);
    }
    NobodyInside(Initial(n).workers, (0, 0));
  }

  lemma SubmitKeeps(s: Pool, count: nat)
    requires Inv(s) && s.caller.Outside?
    ensures Inv(Submit(s, count))
  {
    CountsTell(s.workers, s.epoch + 1);
    CountsTell(s.workers, s.epoch);
    var t := Submit(s, count);
    forall c
      ensures t.started[c] == Expected(t, c.0, c.1)
    {
      assert s.started[c] == Expected(s, c.0, c.1);
    }
  }

  /** One more index is claimed by someone serving the current batch. */
  lemma ClaimCounts(s: Pool, t: Pool)
    requires Inv(s) && s.epoch > 0 && t.next == s.next + 1 && t.counts == s.counts && t.epoch == s.epoch
    requires t.started == if s.next < s.count then s.started + multiset{(s.epoch, s.next)} else s.started
    ensures forall c :: t.started[c] == Expected(t, c.0, c.1)
  {
    forall c
      ensures t.started[c] == Expected(t, c.0, c.1)
    {
      assert s.started[c] == Expected(s, c.0, c.1);
    }
  }

  lemma CallerClaimKeeps(s: Pool, t: Pool)
    requires Inv(s) && Step(s, CallerClaims, t)
    ensures Inv(t)
  {
    ClaimCounts(s, t);
    CountsTell(s.workers, s.epoch);
    assert forall w :: WorkerOk(s, w) ==> WorkerOk(t, w);
  }

  lemma ReturnKeeps(s: Pool, t: Pool)
    requires Inv(s) && Step(s, Return, t)
    ensures Inv(t) && forall c :: s.started[c] == s.finished[c]
    ensures forall i | 0 <= i < |t.workers| :: t.workers[i] == Waiting(t.epoch)
  {
    CountsTell(s.workers, s.epoch);
    forall i | 0 <= i < |s.workers|
      ensures s.workers[i] == Waiting(s.epoch)
    {
      assert WorkerOk(s, s.workers[i]) && EpochOf(s.workers[i]) == s.epoch;
    }
    forall c
      ensures s.started[c] == s.finished[c]
    {
      NobodyInside(s.workers, c);
    }
  }

  lemma CallerFinishKeeps(s: Pool, t: Pool)
    requires Inv(s) && Step(s, CallerFinishes, t)
    ensures Inv(t)
  {
    assert forall w :: WorkerOk(s, w) ==> WorkerOk(t, w);
    assert forall b, i :: Expected(t, b, i) == Expected(s, b, i);
  }

  lemma InsideSteps(s: Pool, e: Event, t: Pool)
    requires Inv(s) && Step(s, e, t) && (e.Enter? || e.Claim? || e.Finish? || e.Leave?)
    ensures forall c :: t.started[c] == t.finished[c] + CallerMakes(t, c) + Inside(t.workers, c)
  {
    forall c
      ensures t.started[c] == t.finished[c] + CallerMakes(t, c) + Inside(t.workers, c)
    {
      InsideChanges(s.workers, e.i, t.workers[e.i], c);
      assert s.started[c] == s.finished[c] + CallerMakes(s, c) + Inside(s.workers, c);
    }
  }

  lemma WorkerCounts(s: Pool, e: Event, t: Pool)
    requires Inv(s) && Step(s, e, t) && (e.Enter? || e.Claim? || e.Finish? || e.Leave?)
    ensures t.active == BusyCount(t.workers) && (t.epoch > 0 ==> t.entered == SeenCount(t.workers, t.epoch))
    ensures s.epoch > 0 && s.active + t.active > 0
  {
    assert WorkerOk(s, s.workers[e.i]);
    OneChanges(s.workers, e.i, t.workers[e.i], s.epoch);
    CountsTell(s.workers, s.epoch);
  }

  lemma WorkersStayOk(s: Pool, e: Event, t: Pool)
    requires Inv(s) && Step(s, e, t) && (e.Enter? || e.Claim? || e.Finish? || e.Leave?)
    ensures forall i | 0 <= i < |t.workers| :: WorkerOk(t, t.workers[i])
    ensures CallerOk(t)
  {
    WorkerCounts(s, e, t);
    CountsTell(s.workers, s.epoch);
    forall i | 0 <= i < |t.workers|
      ensures WorkerOk(t, t.workers[i])
    {
      assert WorkerOk(s, s.workers[i]);
    }
  }

  lemma WorkerKeeps(s: Pool, e: Event, t: Pool)
    requires Inv(s) && Step(s, e, t) && (e.Enter? || e.Claim? || e.Finish? || e.Leave?)
    ensures Inv(t)
  {
    WorkerCounts(s, e, t);
    WorkersStayOk(s, e, t);
    InsideSteps(s, e, t);
    if e.Claim? {
      assert WorkerOk(s, s.workers[e.i]);
      ClaimCounts(s, t);
    } else {
      SameExpected(s, t);
    }
  }

  lemma SameExpected(s: Pool, t: Pool)
    requires Inv(s) && t.next == s.next && t.counts == s.counts && t.epoch == s.epoch && t.started == s.started
    ensures forall c :: t.started[c] == Expected(t, c.0, c.1)
  {
    forall c
      ensures t.started[c] == Expected(t, c.0, c.1)
    {
      assert s.started[c] == Expected(s, c.0, c.1);
    }
  }

  lemma {:induction false} RunKeeps(n: nat, states: seq<Pool>, events: seq<Event>)
    requires IsRun(n, states, events)
    ensures Inv(states[|events|]) && |states[|events|].workers| == n
  {
    if events == [] {
      InitialHolds(n);
    } else {
      var k := |events| - 1;
      RunKeeps(n, states[..k + 1], events[..k]);
      var s, e, t := states[k], events[k], states[k + 1];
      match e
      case Run(count) => SubmitKeeps(s, count);
      case CallerClaims => CallerClaimKeeps(s, t);
      case CallerFinishes => CallerFinishKeeps(s, t);
      case Return => ReturnKeeps(s, t);
      case Enter(_) => WorkerKeeps(s, e, t);
      case Claim(_) => WorkerKeeps(s, e, t);
      case Finish(_) => WorkerKeeps(s, e, t);
      case Leave(_) => WorkerKeeps(s, e, t);
    }
  }

  /** In every interleaving: when a submission returns, every batch so far, this one included, has had each of
      its indices called exactly once with its own function, every call has finished, and no worker is left in it. */
  lemma ReturnedBatchIsComplete(n: nat, states: seq<Pool>, events: seq<Event>, t: Pool)
    requires IsRun(n, states, events) && Step(states[|events|], Return, t)
    ensures t.started == t.finished
    ensures forall b: nat, i: nat :: t.started[(b, i)] == if 1 <= b <= |t.counts| && i < t.counts[b - 1] then 1 else 0
    ensures |t.workers| == n && forall i | 0 <= i < n :: t.workers[i] == Waiting(t.epoch)
  {
    RunKeeps(n, states, events);
    var s := states[|events|];
    ReturnKeeps(s, t);
    forall b: nat, i: nat
      ensures t.started[(b, i)] == if 1 <= b <= |t.counts| && i < t.counts[b - 1] then 1 else 0
    {
      assert s.started[(b, i)] == Expected(s, b, i);
    }
  }

  /** In every interleaving, at every moment: no call is made twice, none outside its batch's range, and whoever
      is about to claim an index claims it for the function and the size of the current batch. */
  lemma NoStaleClaims(n: nat, states: seq<Pool>, events: seq<Event>)
    requires IsRun(n, states, events)
    ensures var s := states[|events|];
            && |s.workers| == n && |s.counts| == s.epoch
            && (forall b: nat, i: nat :: s.started[(b, i)] <= 1)
            && (forall b: nat, i: nat | s.started[(b, i)] == 1 :: 1 <= b <= s.epoch && i < s.counts[b - 1])
            && forall i | 0 <= i < n && s.workers[i].Claiming? ::
                 s.epoch > 0 && s.workers[i] == Claiming(s.epoch, s.epoch, s.counts[s.epoch - 1])
  {
    RunKeeps(n, states, events);
    var s := states[|events|];
    forall b: nat, i: nat
      ensures s.started[(b, i)] == Expected(s, b, i)
    {
      var c := (b, i);
      assert s.started[c] == Expected(s, c.0, c.1);
    }
    forall i | 0 <= i < n && s.workers[i].Claiming?
      ensures s.epoch > 0 && s.workers[i] == Claiming(s.epoch, s.epoch, s.counts[s.epoch - 1])
    {
      assert WorkerOk(s, s.workers[i]);
      CountsTell(s.workers, s.epoch);
    }
  }

  /** The sizes of the batches asked for so far, leaving out empty ones. */
  function Asked(events: seq<Event>): seq<nat> {
    if events == [] then []
    else
      var e := events[|events| - 1];
      Asked(events[..|events| - 1]) + if e.Run? && e.count > 0 then [e.count] else []
  }

  lemma {:induction false} CountsAreAsked(n: nat, states: seq<Pool>, events: seq<Event>)
    requires IsRun(n, states, events)
    ensures states[|events|].counts == (if n > 0 then Asked(events) else []) && |states[|events|].workers| == n
  {
    if events != [] {
      var k := |events| - 1;
      CountsAreAsked(n, states[..k + 1], events[..k]);
      RunKeeps(n, states[..k + 1], events[..k]);
      RunKeeps(n, states, events);
      assert Step(states[k], events[k], states[k + 1]);
    }
  }

  /** Task `i` of the `b`-th batch asked for has been run exactly once. */
  predicate RanOnce(s: Pool, b: nat, i: nat) {
    s.started[(b + 1, i)] == 1 && s.finished[(b + 1, i)] == 1
  }

  predicate AllAskedRan(s: Pool, asked: seq<nat>) {
    forall b, i: nat | 0 <= b < |asked| && i < asked[b] :: RanOnce(s, b, i)
  }

  /** In every interleaving, whenever no submission is under way: every task ever asked for has been run exactly once
      if and only if there is a worker, or there was nothing to run. Without a worker nothing is ever run. */
  lemma EveryTaskRunsIff(n: nat, states: seq<Pool>, events: seq<Event>)
    requires IsRun(n, states, events) && states[|events|].caller.Outside?
    ensures AllAskedRan(states[|events|], Asked(events)) <==> n > 0 || Asked(events) == []
  {
    RunKeeps(n, states, events);
    CountsAreAsked(n, states, events);
    AskedPositive(events);
    var s, asked := states[|events|], Asked(events);
    forall b, i: nat | 0 <= b < |asked| && i < asked[b]
      ensures RanOnce(s, b, i) <==> n > 0
    {
      CalmCalls(s, b, i);
    }
    if n == 0 && asked != [] {
      assert !RanOnce(s, 0, 0);
    }
  }

  /** With no submission under way, every call that should have been made has been made and is over. */
  lemma CalmCalls(s: Pool, b: nat, i: nat)
    requires Inv(s) && s.caller.Outside?
    ensures s.started[(b + 1, i)] == s.finished[(b + 1, i)] == Expected(s, b + 1, i)
    ensures b < |s.counts| && i < s.counts[b] ==> Expected(s, b + 1, i) == 1
  {
    var c := (b + 1, i);
    CountsTell(s.workers, s.epoch);
    NobodyInside(s.workers, c);
    assert s.started[c] == Expected(s, c.0, c.1);
  }

  lemma {:induction false} AskedPositive(events: seq<Event>)
    ensures forall b | 0 <= b < |Asked(events)| :: Asked(events)[b] > 0
  {
    if events != [] {
      AskedPositive(events[..|events| - 1]);
    }
  }
}
