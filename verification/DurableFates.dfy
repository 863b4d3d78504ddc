/** What becomes of a durable request, told from the events alone: whoever asks again is told just that. */
module DurableFates {
  import opened Integers
  import opened Options
  import opened DurableAdmission

  /** A request whose record went to the log: it waits for the log, the log failed, the buffer took the command or turned it
      away, or the command came to its end. */
  datatype Fate = Waiting | LogFailed | Taken(lsn: nat) | TurnedDown(lsn: nat) | Ended(lsn: nat, applied: bool, error: GatewayError)

  /** Number `i` is that of the request's ticket, and later of its command. */
  function NextFate(fate: Fate, e: Event, i: nat): Fate {
    match fate
    case Waiting =>
      if !e.Poll? || e.i != i then fate
      else if e.lsn == None then LogFailed
      else if e.accepted then Taken(e.lsn.value)
      else TurnedDown(e.lsn.value)
    case Taken(lsn) => if e.CommandApplied? && e.i == i then Ended(lsn, e.applied, e.error) else fate
    case _ => fate
  }

  /** The fate before event `m` of a request registered before event `from`. */
  function FateOf(events: seq<Event>, from: nat, m: nat, i: nat): Fate
    requires from <= m <= |events|
  {
    if m == from then Waiting else NextFate(FateOf(events, from, m - 1, i), events[m - 1], i)
  }

  /** What a repetition with the same content is told. */
  function Told(fate: Fate, i: nat, sequence: nat): Receipt {
    match fate
    case Waiting => Receipt(Accepted, NoError, sequence, 0, 0)
    case LogFailed => Receipt(WasRejected, DurabilityUnavailable, sequence, 0, 0)
    case Taken(lsn) => Receipt(DurablyAccepted, NoError, sequence, i, lsn)
    case TurnedDown(lsn) => Receipt(WasRejected, LimitExceeded, sequence, i, lsn)
    case Ended(lsn, applied, error) =>
      if applied then Receipt(WasApplied, NoError, sequence, i, lsn) else Receipt(WasRejected, error, sequence, i, lsn)
  }

  /** The request is new, and nothing keeps its record from the log. */
  predicate Registers(g: Gate, r: Request) {
    && r.session.Some? && r.key.Some? && r.key.value !in g.index
    && r.admitted.Some? && r.logReady && g.ingress != U64_MAX && r.appends
  }

  /** The entry that goes with a fate. */
  function SlotOf(fate: Fate, i: nat, r: Request): Slot {
    match fate
    case Waiting => Slot(r.fingerprint, Registered, 0, r.sequence, 0, NoError)
    case LogFailed => Slot(r.fingerprint, Registered, 0, r.sequence, 0, NoError)
    case Taken(lsn) => Slot(r.fingerprint, Logged, lsn, r.sequence, i, NoError)
    case TurnedDown(lsn) => Slot(r.fingerprint, Rejected, lsn, r.sequence, i, LimitExceeded)
    case Ended(lsn, applied, error) =>
      Slot(r.fingerprint, if applied then Applied else Rejected, lsn, r.sequence, i, if applied then NoError else error)
  }

  /** The gateway holds what the fate says: the ticket, the command, or neither, and the entry of the key. */
  predicate Holds(g: Gate, i: nat, r: Request, fate: Fate)
    requires r.key.Some?
  {
    && i <= g.ingress
    && (i in g.tickets <==> fate.Waiting?) && (i in g.commands <==> fate.Taken?)
    && (fate.Waiting? ==> g.tickets[i].key == r.key.value && g.tickets[i].sequence == r.sequence)
    && (fate.Taken? ==> g.commands[i].key == r.key)
    && (!fate.LogFailed? ==> r.key.value in g.index && g.index[r.key.value] == SlotOf(fate, i, r))
  }

  lemma RegisteredHolds(g: Gate, restored: set<Key>, r: Request, t: Gate)
    requires Inv(g, restored) && Step(g, Submit(r), t) && Registers(g, r)
    ensures Holds(t, g.ingress + 1, r, Waiting)
  {
  }

  lemma SubmitHolds(g: Gate, restored: set<Key>, i: nat, r: Request, fate: Fate, again: Request, t: Gate)
    requires Inv(g, restored) && r.key.Some? && Holds(g, i, r, fate) && Step(g, Submit(again), t)
    ensures Holds(t, i, r, fate)
  {
  }

  lemma PollHolds(g: Gate, restored: set<Key>, i: nat, r: Request, fate: Fate, e: Event, t: Gate)
    requires Inv(g, restored) && r.key.Some? && Holds(g, i, r, fate) && Step(g, e, t) && e.Poll?
    ensures Holds(t, i, r, NextFate(fate, e, i))
  {
  }

  lemma AppliedHolds(g: Gate, restored: set<Key>, i: nat, r: Request, fate: Fate, e: Event, t: Gate)
    requires Inv(g, restored) && r.key.Some? && Holds(g, i, r, fate) && Step(g, e, t) && e.CommandApplied?
    ensures Holds(t, i, r, NextFate(fate, e, i))
  {
  }

  lemma StepHolds(g: Gate, restored: set<Key>, i: nat, r: Request, fate: Fate, e: Event, t: Gate)
    requires Inv(g, restored) && r.key.Some? && Holds(g, i, r, fate) && Step(g, e, t)
    ensures Holds(t, i, r, NextFate(fate, e, i))
  {
    match e
    case Submit(again) => SubmitHolds(g, restored, i, r, fate, again, t);
    case Plain(_, _) =>
    case Poll(_, _, _) => PollHolds(g, restored, i, r, fate, e, t);
    case CommandApplied(_, _, _) => AppliedHolds(g, restored, i, r, fate, e, t);
  }

  lemma InvAt(states: seq<Gate>, events: seq<Event>, j: nat)
    requires IsRun(states, events) && j <= |events|
    ensures Inv(states[j], states[0].index.Keys)
    ensures j < |events| ==> Step(states[j], events[j], states[j + 1])
  {
    RunKeeps(states[..j + 1], events[..j]);
  }

  /** Holding as a value. */
  function Fated(i: nat, r: Request): (Gate, Fate) -> bool
    requires r.key.Some?
  {
    (g: Gate, fate: Fate) => r.key.Some? && Holds(g, i, r, fate)
  }

  lemma FirstFated(states: seq<Gate>, events: seq<Event>, s: nat, r: Request)
    requires IsRun(states, events) && s < |events| && events[s] == Submit(r) && Registers(states[s], r)
    ensures Fated(states[s].ingress + 1, r)(states[s + 1], Waiting)
  {
    InvAt(states, events, s);
    RegisteredHolds(states[s], states[0].index.Keys, r, states[s + 1]);
  }

  lemma NextFated(states: seq<Gate>, events: seq<Event>, j: nat, i: nat, r: Request, fate: Fate)
    requires IsRun(states, events) && j < |events| && r.key.Some? && Fated(i, r)(states[j], fate)
    ensures Fated(i, r)(states[j + 1], NextFate(fate, events[j], i))
  {
    InvAt(states, events, j);
    StepHolds(states[j], states[0].index.Keys, i, r, fate, events[j], states[j + 1]);
  }

  /** `p` goes from each state to the next, along with the fate. */
  ghost predicate Follows(p: (Gate, Fate) -> bool, states: seq<Gate>, events: seq<Event>, i: nat)
    requires |states| == |events| + 1
  {
    forall j, fate | 0 <= j < |events| && p(states[j], fate) :: p(states[j + 1], NextFate(fate, events[j], i))
  }

  lemma {:induction false} Along(p: (Gate, Fate) -> bool, states: seq<Gate>, events: seq<Event>, from: nat, m: nat, i: nat)
    requires |states| == |events| + 1 && from <= m <= |events| && p(states[from], Waiting) && Follows(p, states, events, i)
    ensures p(states[m], FateOf(events, from, m, i))
  {
    if from < m {
      Along(p, states, events, from, m - 1, i);
      var fate := FateOf(events, from, m - 1, i);
      assert p(states[m - 1], fate);
      assert p(states[m - 1 + 1], NextFate(fate, events[m - 1], i));
    }
  }

  lemma RunHolds(states: seq<Gate>, events: seq<Event>, s: nat, m: nat, r: Request)
    requires IsRun(states, events) && s < m <= |events| && events[s] == Submit(r) && Registers(states[s], r)
    ensures Holds(states[m], states[s].ingress + 1, r, FateOf(events, s + 1, m, states[s].ingress + 1))
  {
    var i := states[s].ingress + 1;
    FirstFated(states, events, s, r);
    forall j, fate | 0 <= j < |events| && Fated(i, r)(states[j], fate)
      ensures Fated(i, r)(states[j + 1], NextFate(fate, events[j], i))
    {
      NextFated(states, events, j, i, r, fate);
    }
    Along(Fated(i, r), states, events, s + 1, m, i);
  }

  /** What the gateway answers at once to whoever repeats the request. */
  lemma HeldIsTold(g: Gate, i: nat, r: Request, fate: Fate, again: Request)
    requires r.key.Some? && Holds(g, i, r, fate) && !fate.LogFailed? && again.session.Some? && again.key == r.key
    ensures Immediate(g, again) ==
            Some(if again.fingerprint == r.fingerprint then Told(fate, i, r.sequence)
                 else Receipt(WasRejected, IdempotencyConflict, again.sequence, 0, 0))
  {
  }

  /** The log's failure frees the key. */
  lemma FailedIsFree(g: Gate, i: nat, r: Request, fate: Fate, lsn: Option<nat>, accepted: bool, t: Gate)
    requires r.key.Some? && Holds(g, i, r, fate) && Step(g, Poll(i, lsn, accepted), t)
    ensures fate == Waiting && (lsn == None ==> r.key.value !in t.index)
  {
  }

  /** In every run: once a request was registered, whoever repeats it with the same content is told what became of it, as the
      log's answer to its ticket and then the buffer's answer to its command say: accepted, in the log under its LSN, applied, or
      rejected with the error given; and repeated with another content it is a conflict. */
  lemma RetryIsTold(states: seq<Gate>, events: seq<Event>, s: nat, m: nat, r: Request, again: Request)
    requires IsRun(states, events) && s < m <= |events| && events[s] == Submit(r) && Registers(states[s], r)
    requires again.session.Some? && again.key == r.key && !FateOf(events, s + 1, m, states[s].ingress + 1).LogFailed?
    ensures var i := states[s].ingress + 1;
            Immediate(states[m], again) ==
            Some(if again.fingerprint == r.fingerprint then Told(FateOf(events, s + 1, m, i), i, r.sequence)
                 else Receipt(WasRejected, IdempotencyConflict, again.sequence, 0, 0))
  {
    var i := states[s].ingress + 1;
    RunHolds(states, events, s, m, r);
    HeldIsTold(states[m], i, r, FateOf(events, s + 1, m, i), again);
  }

  /** In every run: when the log fails for a registered request, its key is free again. */
  lemma FailureFreesKey(states: seq<Gate>, events: seq<Event>, s: nat, m: nat, r: Request, accepted: bool)
    requires IsRun(states, events) && s < m < |events| && events[s] == Submit(r) && Registers(states[s], r)
    requires events[m] == Poll(states[s].ingress + 1, None, accepted)
    ensures r.key.value !in states[m + 1].index
  {
    var i := states[s].ingress + 1;
    RunHolds(states, events, s, m, r);
    InvAt(states, events, m);
    FailedIsFree(states[m], i, r, FateOf(events, s + 1, m, i), None, accepted, states[m + 1]);
  }

  /** A request goes to the log exactly if it registers; otherwise it is answered at once, and the answer says why. */
  lemma AnsweredAtOnceIff(g: Gate, r: Request)
    ensures Immediate(g, r) == None <==> Registers(g, r)
    ensures Immediate(g, r).Some? && !(r.session.Some? && r.key.Some? && r.key.value in g.index) ==>
              var answer := Immediate(g, r).value;
              && answer == Receipt(WasRejected, answer.error, r.sequence, 0, 0)
              && (answer.error == InvalidRequest <==> r.session == None || r.key == None)
              && (answer.error.NotAdmitted? <==> r.session.Some? && r.key.Some? && r.admitted == None)
              && (answer.error == LimitExceeded <==> r.session.Some? && r.key.Some? && r.admitted.Some? && r.logReady && g.ingress == U64_MAX)
              && answer.error in {InvalidRequest, NotAdmitted(r.refusal), DurabilityUnavailable, LimitExceeded}
  {
  }
}
