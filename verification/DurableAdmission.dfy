/** Durable admission in the gateway: requests are recognised by their key, logged, handed to the command buffer once
    the log has them, and brought to an end when the command was applied. */
module DurableAdmission {
  import opened Integers
  import opened Options
  import opened LeBytes
  import opened WorldModel
  import opened DurableCodec

  datatype Key = Key(principal: Text, request: RequestId)

  datatype EntryState = Registered | Logged | Applied | Rejected

  datatype GatewayError =
    | NoError | InvalidRequest | IdempotencyConflict | DurabilityUnavailable | LimitExceeded | NotAdmitted(code: nat)
    | VersionConflict | MissingObject

  datatype Slot = Slot(
    fingerprint: seq<Byte>, state: EntryState, lsn: nat, sequence: nat, ingress: nat, error: GatewayError)
  {
    predicate Final() {
      state.Applied? || state.Rejected?
    }
  }

  /** A command whose log record is being written; `call` is the submission whose completion is still owed. */
  datatype Ticketed = Ticketed(key: Key, session: nat, sequence: nat, tick: nat, call: nat)

  /** A command in the buffer; one that came without a key is not a durable one. */
  datatype Buffered = Buffered(session: nat, sequence: nat, key: Option<Key>)

  datatype Status = Accepted | DurablyAccepted | WasApplied | WasRejected

  datatype Receipt = Receipt(status: Status, error: GatewayError, sequence: nat, ingress: nat, lsn: nat)

  /** The gateway's durable state, with what it has done so far: the submissions it answered, and per key how many
      records it appended, how many of them failed, and how often the command went to the buffer or was refused by it. */
  datatype Gate = Gate(
    index: map<Key, Slot>, tickets: map<nat, Ticketed>, commands: map<nat, Buffered>, ingress: nat,
    calls: nat, completed: multiset<nat>,
    appended: multiset<Key>, failed: multiset<Key>, submitted: multiset<Key>, refused: multiset<Key>)

  /** A submission: what the session and the request say, what admission and the log would answer. */
  datatype Request = Request(
    session: Option<nat>, key: Option<Key>, fingerprint: seq<Byte>, sequence: nat,
    admitted: Option<nat>, refusal: nat, logReady: bool, appends: bool)

  function Rejection(error: GatewayError, sequence: nat): Receipt {
    Receipt(WasRejected, error, sequence, 0, 0)
  }

  /** The answer to a request whose key is known already. */
  function Known(slot: Slot, r: Request): Receipt {
    if slot.fingerprint != r.fingerprint then Rejection(IdempotencyConflict, r.sequence)
    else
      var status := match slot.state
        case Registered => Accepted
        case Logged => DurablyAccepted
        case Applied => WasApplied
        case Rejected => WasRejected;
      Receipt(status, if slot.state.Rejected? then slot.error else NoError, slot.sequence, slot.ingress, slot.lsn)
  }

  /** The answer given at once, if the request does not have to wait for the log. */
  function Immediate(g: Gate, r: Request): Option<Receipt> {
    if r.session == None || r.key == None then Some(Rejection(InvalidRequest, r.sequence))
    else if r.key.value in g.index then Some(Known(g.index[r.key.value], r))
    else if r.admitted == None then Some(Rejection(NotAdmitted(r.refusal), r.sequence))
    else if !r.logReady then Some(Rejection(DurabilityUnavailable, r.sequence))
    else if g.ingress == U64_MAX then Some(Rejection(LimitExceeded, r.sequence))
    else if !r.appends then Some(Rejection(DurabilityUnavailable, r.sequence))
    else None
  }

  /** The request is registered and its record handed to the log. */
  function Registering(g: Gate, key: Key, session: nat, tick: nat, fingerprint: seq<Byte>, sequence: nat): Gate {
    g.(calls := g.calls + 1, ingress := g.ingress + 1,
       index := g.index[key := Slot(fingerprint, Registered, 0, sequence, 0, NoError)],
       tickets := g.tickets[g.ingress + 1 := Ticketed(key, session, sequence, tick, g.calls)],
       appended := g.appended + multiset{key})
  }

  function DoSubmit(g: Gate, r: Request): Gate {
    if Immediate(g, r).Some? then g.(calls := g.calls + 1, completed := g.completed + multiset{g.calls})
    else Registering(g, r.key.value, r.session.value, r.admitted.value, r.fingerprint, r.sequence)
  }

  /** A command that is not durable enters the buffer. */
  function DoPlain(g: Gate, session: nat, sequence: nat): Gate {
    g.(ingress := g.ingress + 1, commands := g.commands[g.ingress + 1 := Buffered(session, sequence, None)])
  }

  /** The entry of a key, if it has one, changed. */
  function Changed(index: map<Key, Slot>, key: Key, f: Slot -> Slot): map<Key, Slot> {
    if key in index then index[key := f(index[key])] else index
  }

  function WithLog(lsn: nat, ingress: nat): Slot -> Slot {
    (slot: Slot) => slot.(state := Logged, lsn := lsn, ingress := ingress)
  }

  function WithRefusal(lsn: nat, ingress: nat): Slot -> Slot {
    (slot: Slot) => slot.(state := Rejected, lsn := lsn, ingress := ingress, error := LimitExceeded)
  }

  function WithEnd(applied: bool, error: GatewayError): Slot -> Slot {
    (slot: Slot) => slot.(state := if applied then Applied else Rejected, error := if applied then NoError else error)
  }

  /** The record of a ticket failed: the key is free again. */
  function Forgotten(g: Gate, i: nat, t: Ticketed): Gate {
    g.(tickets := g.tickets - {i}, completed := g.completed + multiset{t.call}, index := g.index - {t.key}, failed := g.failed + multiset{t.key})
  }

  /** The record is in the log and the buffer has taken the command. */
  function Delivered(g: Gate, i: nat, t: Ticketed, lsn: nat): Gate {
    g.(tickets := g.tickets - {i}, completed := g.completed + multiset{t.call}, index := Changed(g.index, t.key, WithLog(lsn, i)),
       commands := g.commands[i := Buffered(t.session, t.sequence, Some(t.key))], submitted := g.submitted + multiset{t.key})
  }

  /** The record is in the log and the buffer has refused the command. */
  function TurnedAway(g: Gate, i: nat, t: Ticketed, lsn: nat): Gate {
    g.(tickets := g.tickets - {i}, completed := g.completed + multiset{t.call}, index := Changed(g.index, t.key, WithRefusal(lsn, i)),
       refused := g.refused + multiset{t.key})
  }

  /** The log has answered for ticket `i`; `accepted` tells whether the buffer takes the command. */
  function DoPoll(g: Gate, i: nat, lsn: Option<nat>, accepted: bool): Gate
    requires i in g.tickets
  {
    if lsn == None then Forgotten(g, i, g.tickets[i])
    else if accepted then Delivered(g, i, g.tickets[i], lsn.value)
    else TurnedAway(g, i, g.tickets[i], lsn.value)
  }

  /** The buffer has applied or rejected command `i`; commands it does not know are passed over. */
  function DoApplied(g: Gate, i: nat, applied: bool, error: GatewayError): Gate {
    if i !in g.commands then g
    else
      var key := g.commands[i].key;
      g.(commands := g.commands - {i}, index := if key.Some? then Changed(g.index, key.value, WithEnd(applied, error)) else g.index)
  }

  datatype Event =
    | Submit(request: Request)
    | Plain(session: nat, sequence: nat)
    | Poll(i: nat, lsn: Option<nat>, accepted: bool)
    | CommandApplied(i: nat, applied: bool, error: GatewayError)

  predicate Step(g: Gate, e: Event, t: Gate) {
    match e
    case Submit(request) => t == DoSubmit(g, request)
    case Plain(session, sequence) => g.ingress != U64_MAX && t == DoPlain(g, session, sequence)
    case Poll(i, lsn, accepted) => i in g.tickets && t == DoPoll(g, i, lsn, accepted)
    case CommandApplied(i, applied, error) => t == DoApplied(g, i, applied, error)
  }

  /** A gateway started with an index rebuilt from the log: nothing is under way. */
  predicate Start(g: Gate) {
    && g == Gate(g.index, map[], map[], 0, 0, multiset{}, multiset{}, multiset{}, multiset{}, multiset{})
    && forall k | k in g.index :: !g.index[k].state.Registered?
  }

  predicate IsRun(states: seq<Gate>, events: seq<Event>) {
    && |states| == |events| + 1 && Start(states[0])
    && forall i | 0 <= i < |events| :: Step(states[i], events[i], states[i + 1])
  }

  // ---- The three stages ----

  predicate Writing(g: Gate, k: Key) {
    exists i :: i in g.tickets && g.tickets[i].key == k
  }

  predicate InBuffer(g: Gate, k: Key) {
    exists i :: i in g.commands && g.commands[i].key == Some(k)
  }

  /** Tickets are kept apart: each for its own key, and numbered. */
  predicate TicketsOk(g: Gate) {
    && (forall i | i in g.tickets :: i <= g.ingress && g.tickets[i].key in g.index && g.index[g.tickets[i].key].state.Registered?)
    && (forall i, j | i in g.tickets && j in g.tickets && i != j :: g.tickets[i].key != g.tickets[j].key)
  }

  predicate CommandsOk(g: Gate) {
    && (forall i | i in g.commands :: i <= g.ingress && i !in g.tickets)
    && (forall i | i in g.commands && g.commands[i].key.Some? ::
          g.commands[i].key.value in g.index && g.index[g.commands[i].key.value].state.Logged?)
    && (forall i, j | i in g.commands && j in g.commands && i != j && g.commands[i].key.Some? :: g.commands[i].key != g.commands[j].key)
  }

  /** Every key is in the stage its state tells; one found logged at the start may have no command here. */
  predicate StagesOk(g: Gate, restored: set<Key>) {
    && (forall k | k in g.index && g.index[k].state.Registered? :: Writing(g, k))
    && (forall k | k in g.index && g.index[k].state.Logged? :: k in restored || InBuffer(g, k))
  }

  /** One record for each key that is known now and was not at the start, beside those that failed; one submission once
      its record is in the log. */
  ghost predicate CountsOk(g: Gate, restored: set<Key>) {
    && (forall k | k in restored :: k in g.index && !g.index[k].state.Registered?)
    && (forall k :: g.appended[k] == g.failed[k] + if k in g.index && k !in restored then 1 else 0)
    && (forall k :: g.submitted[k] + g.refused[k] ==
                    if k in g.index && k !in restored && !g.index[k].state.Registered? then 1 else 0)
  }

  predicate Owed(g: Gate, call: nat) {
    exists i :: i in g.tickets && g.tickets[i].call == call
  }

  /** Every submission so far has been answered once, or its ticket still owes the answer. */
  ghost predicate CallsOk(g: Gate) {
    && (forall i | i in g.tickets :: g.tickets[i].call < g.calls)
    && (forall i, j | i in g.tickets && j in g.tickets && i != j :: g.tickets[i].call != g.tickets[j].call)
    && (forall c: nat :: Answered(g, c))
  }

  predicate Answered(g: Gate, c: nat) {
    g.completed[c] == if c < g.calls && !Owed(g, c) then 1 else 0
  }

  ghost predicate Inv(g: Gate, restored: set<Key>) {
    TicketsOk(g) && CommandsOk(g) && StagesOk(g, restored) && CountsOk(g, restored) && CallsOk(g)
  }

  lemma StartHolds(g: Gate)
    requires Start(g)
    ensures Inv(g, g.index.Keys)
  {
  }

  // ---- What every step keeps ----

  /** A submission answered at once changes nothing but the count of answers. */
  lemma AnsweredKeeps(g: Gate, restored: set<Key>, r: Request)
    requires Inv(g, restored) && Immediate(g, r).Some?
    ensures Inv(DoSubmit(g, r), restored)
  {
    var t := DoSubmit(g, r);
    SameStages(g, t, restored);
    forall c: nat
      ensures Answered(t, c)
    {
      assert Answered(g, c);
      assert Owed(t, c) <==> Owed(g, c);
    }
  }

  lemma SameStages(g: Gate, t: Gate, restored: set<Key>)
    requires StagesOk(g, restored) && t.index == g.index && t.tickets == g.tickets
    requires forall i | i in g.commands && g.commands[i].key.Some? :: i in t.commands && t.commands[i] == g.commands[i]
    ensures StagesOk(t, restored)
  {
    forall k | k in t.index && t.index[k].state.Registered?
      ensures Writing(t, k)
    {
      assert Writing(g, k);
    }
    forall k | k in t.index && t.index[k].state.Logged? && k !in restored
      ensures InBuffer(t, k)
    {
      assert InBuffer(g, k);
      var i :| i in g.commands && g.commands[i].key == Some(k);
      assert t.commands[i].key == Some(k);
    }
  }

  /** A submission that is logged: its key is new. */
  lemma LoggedIsNew(g: Gate, restored: set<Key>, r: Request)
    requires Inv(g, restored) && Immediate(g, r) == None
    ensures r.key.value !in g.index && r.key.value !in restored
    ensures g.ingress + 1 !in g.tickets && g.ingress + 1 !in g.commands
    ensures forall i | i in g.tickets :: g.tickets[i].key != r.key.value
    ensures forall i | i in g.commands && g.commands[i].key.Some? :: g.commands[i].key.value != r.key.value
  {
  }

  lemma LoggedTickets(g: Gate, restored: set<Key>, r: Request)
    requires Inv(g, restored) && Immediate(g, r) == None
    ensures TicketsOk(DoSubmit(g, r))
  {
    LoggedIsNew(g, restored, r);
  }

  lemma LoggedCommands(g: Gate, restored: set<Key>, r: Request)
    requires Inv(g, restored) && Immediate(g, r) == None
    ensures CommandsOk(DoSubmit(g, r))
  {
    LoggedIsNew(g, restored, r);
  }

  lemma LoggedCounts(g: Gate, restored: set<Key>, r: Request)
    requires Inv(g, restored) && Immediate(g, r) == None
    ensures CountsOk(DoSubmit(g, r), restored)
  {
    LoggedIsNew(g, restored, r);
  }

  lemma LoggedKeeps(g: Gate, restored: set<Key>, r: Request)
    requires Inv(g, restored) && Immediate(g, r) == None
    ensures Inv(DoSubmit(g, r), restored)
  {
    LoggedTickets(g, restored, r);
    LoggedCommands(g, restored, r);
    LoggedStages(g, restored, r);
    LoggedCounts(g, restored, r);
    LoggedCalls(g, restored, r);
  }

  lemma LoggedStages(g: Gate, restored: set<Key>, r: Request)
    requires Inv(g, restored) && Immediate(g, r) == None
    ensures StagesOk(DoSubmit(g, r), restored)
  {
    var t, key, i := DoSubmit(g, r), r.key.value, g.ingress + 1;
    assert i !in g.tickets;
    assert t.tickets[i].key == key;
    forall k | k in t.index && t.index[k].state.Registered?
      ensures Writing(t, k)
    {
      if k != key {
        assert Writing(g, k);
        var j :| j in g.tickets && g.tickets[j].key == k;
        assert t.tickets[j].key == k;
      }
    }
    forall k | k in t.index && t.index[k].state.Logged? && k !in restored
      ensures InBuffer(t, k)
    {
      assert InBuffer(g, k);
    }
  }

  lemma LoggedCalls(g: Gate, restored: set<Key>, r: Request)
    requires Inv(g, restored) && Immediate(g, r) == None
    ensures CallsOk(DoSubmit(g, r))
  {
    var t, i := DoSubmit(g, r), g.ingress + 1;
    assert i !in g.tickets;
    assert t.tickets[i].call == g.calls;
    forall c: nat
      ensures Answered(t, c)
    {
      if Owed(g, c) {
        var j :| j in g.tickets && g.tickets[j].call == c;
        assert t.tickets[j].call == c;
      }
      assert Answered(g, c);
      assert Owed(t, c) <==> Owed(g, c) || c == g.calls;
    }
  }

  lemma PlainKeeps(g: Gate, restored: set<Key>, session: nat, sequence: nat)
    requires Inv(g, restored)
    ensures Inv(DoPlain(g, session, sequence), restored)
  {
    var t := DoPlain(g, session, sequence);
    SameStages(g, t, restored);
    forall c: nat
      ensures Answered(t, c)
    {
      assert Answered(g, c);
      assert Owed(t, c) <==> Owed(g, c);
    }
  }

  /** The answer owed by a ticket is given once. */
  lemma PollCalls(g: Gate, restored: set<Key>, i: nat, lsn: Option<nat>, accepted: bool)
    requires Inv(g, restored) && i in g.tickets
    ensures CallsOk(DoPoll(g, i, lsn, accepted))
  {
    var t, call := DoPoll(g, i, lsn, accepted), g.tickets[i].call;
    forall c: nat
      ensures Answered(t, c)
    {
      if c == call {
        assert Owed(g, c);
      } else if Owed(g, c) {
        var j :| j in g.tickets && g.tickets[j].call == c;
        assert t.tickets[j].call == c;
      }
      assert Answered(g, c);
      assert Owed(t, c) <==> Owed(g, c) && c != call;
    }
  }

  /** The polled key is nobody else's. */
  lemma PolledAlone(g: Gate, restored: set<Key>, i: nat)
    requires Inv(g, restored) && i in g.tickets
    ensures g.tickets[i].key in g.index && g.index[g.tickets[i].key].state.Registered? && g.tickets[i].key !in restored
    ensures forall j | j in g.tickets && j != i :: g.tickets[j].key != g.tickets[i].key
    ensures forall j | j in g.commands && g.commands[j].key.Some? :: g.commands[j].key.value != g.tickets[i].key
    ensures i !in g.commands && i <= g.ingress
  {
  }

  lemma PollTicketsOk(g: Gate, restored: set<Key>, i: nat, lsn: Option<nat>, accepted: bool)
    requires Inv(g, restored) && i in g.tickets
    ensures TicketsOk(DoPoll(g, i, lsn, accepted))
  {
    PolledAlone(g, restored, i);
    var t, key := DoPoll(g, i, lsn, accepted), g.tickets[i].key;
    forall j | j in t.tickets
      ensures j <= t.ingress && t.tickets[j].key in t.index && t.index[t.tickets[j].key].state.Registered?
    {
      assert j in g.tickets && t.tickets[j] == g.tickets[j] && g.tickets[j].key != key;
    }
  }

  lemma PollCommandsOk(g: Gate, restored: set<Key>, i: nat, lsn: Option<nat>, accepted: bool)
    requires Inv(g, restored) && i in g.tickets
    ensures CommandsOk(DoPoll(g, i, lsn, accepted))
  {
    PolledAlone(g, restored, i);
    var t, key := DoPoll(g, i, lsn, accepted), g.tickets[i].key;
    forall j | j in t.commands && t.commands[j].key.Some?
      ensures t.commands[j].key.value in t.index && t.index[t.commands[j].key.value].state.Logged?
    {
      assert j == i || (j in g.commands && t.commands[j] == g.commands[j] && g.commands[j].key.value != key);
    }
  }

  lemma PollStages(g: Gate, restored: set<Key>, i: nat, lsn: Option<nat>, accepted: bool)
    requires Inv(g, restored) && i in g.tickets
    ensures StagesOk(DoPoll(g, i, lsn, accepted), restored)
  {
    var t, key := DoPoll(g, i, lsn, accepted), g.tickets[i].key;
    forall k | k in t.index && t.index[k].state.Registered?
      ensures Writing(t, k)
    {
      assert k != key && Writing(g, k);
      var j :| j in g.tickets && g.tickets[j].key == k;
      assert t.tickets[j].key == k;
    }
    forall k | k in t.index && t.index[k].state.Logged? && k !in restored
      ensures InBuffer(t, k)
    {
      if k == key {
        assert t.commands[i].key == Some(k);
      } else {
        assert InBuffer(g, k);
        var j :| j in g.commands && g.commands[j].key == Some(k);
        assert t.commands[j].key == Some(k);
      }
    }
  }

  lemma PollCounts(g: Gate, restored: set<Key>, i: nat, lsn: Option<nat>, accepted: bool)
    requires Inv(g, restored) && i in g.tickets
    ensures CountsOk(DoPoll(g, i, lsn, accepted), restored)
  {
    var t, key := DoPoll(g, i, lsn, accepted), g.tickets[i].key;
    assert key in g.index && key !in restored;
    forall k
      ensures t.appended[k] == t.failed[k] + if k in t.index && k !in restored then 1 else 0
      ensures t.submitted[k] + t.refused[k] == if k in t.index && k !in restored && !t.index[k].state.Registered? then 1 else 0
    {
      assert g.appended[k] == g.failed[k] + if k in g.index && k !in restored then 1 else 0;
    }
  }

  lemma PollKeeps(g: Gate, restored: set<Key>, i: nat, lsn: Option<nat>, accepted: bool)
    requires Inv(g, restored) && i in g.tickets
    ensures Inv(DoPoll(g, i, lsn, accepted), restored)
  {
    PollTicketsOk(g, restored, i, lsn, accepted);
    PollCommandsOk(g, restored, i, lsn, accepted);
    PollStages(g, restored, i, lsn, accepted);
    PollCounts(g, restored, i, lsn, accepted);
    PollCalls(g, restored, i, lsn, accepted);
  }

  lemma AppliedStages(g: Gate, restored: set<Key>, i: nat, applied: bool, error: GatewayError)
    requires Inv(g, restored)
    ensures StagesOk(DoApplied(g, i, applied, error), restored)
  {
    var t := DoApplied(g, i, applied, error);
    forall k | k in t.index && t.index[k].state.Registered?
      ensures Writing(t, k)
    {
      assert Writing(g, k);
    }
    forall k | k in t.index && t.index[k].state.Logged? && k !in restored
      ensures InBuffer(t, k)
    {
      assert InBuffer(g, k);
      var j :| j in g.commands && g.commands[j].key == Some(k);
      assert t.commands[j].key == Some(k);
    }
  }

  lemma AppliedTickets(g: Gate, restored: set<Key>, i: nat, applied: bool, error: GatewayError)
    requires Inv(g, restored)
    ensures TicketsOk(DoApplied(g, i, applied, error))
  {
  }

  lemma AppliedCommands(g: Gate, restored: set<Key>, i: nat, applied: bool, error: GatewayError)
    requires Inv(g, restored)
    ensures CommandsOk(DoApplied(g, i, applied, error))
  {
  }

  lemma AppliedCounts(g: Gate, restored: set<Key>, i: nat, applied: bool, error: GatewayError)
    requires Inv(g, restored)
    ensures CountsOk(DoApplied(g, i, applied, error), restored)
  {
  }

  lemma AppliedCalls(g: Gate, restored: set<Key>, i: nat, applied: bool, error: GatewayError)
    requires Inv(g, restored)
    ensures CallsOk(DoApplied(g, i, applied, error))
  {
    var t := DoApplied(g, i, applied, error);
    forall c: nat
      ensures Answered(t, c)
    {
      assert Answered(g, c);
      assert Owed(t, c) <==> Owed(g, c);
    }
  }

  lemma AppliedKeeps(g: Gate, restored: set<Key>, i: nat, applied: bool, error: GatewayError)
    requires Inv(g, restored)
    ensures Inv(DoApplied(g, i, applied, error), restored)
  {
    AppliedTickets(g, restored, i, applied, error);
    AppliedCommands(g, restored, i, applied, error);
    AppliedStages(g, restored, i, applied, error);
    AppliedCounts(g, restored, i, applied, error);
    AppliedCalls(g, restored, i, applied, error);
  }

  lemma StepKeeps(g: Gate, restored: set<Key>, e: Event, t: Gate)
    requires Inv(g, restored) && Step(g, e, t)
    ensures Inv(t, restored)
  {
    match e
    case Submit(r) =>
      if Immediate(g, r).Some? {
        AnsweredKeeps(g, restored, r);
      } else {
        LoggedKeeps(g, restored, r);
      }
    case Plain(session, sequence) => PlainKeeps(g, restored, session, sequence);
    case Poll(i, lsn, accepted) => PollKeeps(g, restored, i, lsn, accepted);
    case CommandApplied(i, applied, error) => AppliedKeeps(g, restored, i, applied, error);
  }

  lemma {:induction false} RunKeeps(states: seq<Gate>, events: seq<Event>)
    requires IsRun(states, events)
    ensures Inv(states[|events|], states[0].index.Keys)
  {
    if events == [] {
      StartHolds(states[0]);
    } else {
      var n := |events| - 1;
      RunKeeps(states[..n + 1], events[..n]);
      StepKeeps(states[n], states[0].index.Keys, events[n], states[n + 1]);
    }
  }

  // ---- Idempotence ----

  /** In every run: a key's command goes to the buffer at most once, ever; as long as the key is known its record has been
      appended exactly once more than it failed, and not at all if the key was known at the start; and a known key is in
      exactly one stage: its record is being written, its command is in the buffer, or it has come to an end. Only a key
      found logged at the start has no command here. */
  lemma EachKeyOnce(states: seq<Gate>, events: seq<Event>, k: Key)
    requires IsRun(states, events)
    ensures var g, restored := states[|events|], states[0].index.Keys;
            && g.submitted[k] <= 1
            && g.appended[k] == g.failed[k] + (if k in g.index && k !in restored then 1 else 0)
            && (k in restored ==> k in g.index && g.submitted[k] == 0)
            && (k in g.index ==>
                  && (Writing(g, k) <==> g.index[k].state.Registered?)
                  && (InBuffer(g, k) ==> g.index[k].state.Logged?)
                  && (g.index[k].state.Logged? ==> InBuffer(g, k) || k in restored))
  {
    RunKeeps(states, events);
  }

  /** In every run: every submission has been answered exactly once, or its ticket is still open. */
  lemma EverySubmissionAnsweredOnce(states: seq<Gate>, events: seq<Event>, call: nat)
    requires IsRun(states, events) && call < states[|events|].calls
    ensures var g := states[|events|];
            g.completed[call] == (if Owed(g, call) then 0 else 1) && (g.tickets == map[] ==> g.completed[call] == 1)
  {
    RunKeeps(states, events);
    assert Answered(states[|events|], call);
  }

  /** What one step can do to a known key: nothing, or one move forward; only a failed record forgets it. */
  predicate Forward(a: Slot, b: Option<Slot>) {
    match b
    case None => a.state.Registered?
    case Some(slot) =>
      || slot == a
      || (&& a.state.Registered? && (slot.state.Logged? || (slot.state.Rejected? && slot.error == LimitExceeded))
          && slot == a.(state := slot.state, lsn := slot.lsn, ingress := slot.ingress, error := slot.error))
      || (a.state.Logged? && slot.Final() && slot == a.(state := slot.state, error := slot.error))
  }

  function Entry(g: Gate, k: Key): Option<Slot> {
    if k in g.index then Some(g.index[k]) else None
  }

  lemma PollMovesForward(g: Gate, restored: set<Key>, i: nat, lsn: Option<nat>, accepted: bool, k: Key)
    requires Inv(g, restored) && i in g.tickets && k in g.index
    ensures Forward(g.index[k], Entry(DoPoll(g, i, lsn, accepted), k))
  {
    PolledAlone(g, restored, i);
  }

  lemma AppliedMovesForward(g: Gate, restored: set<Key>, i: nat, applied: bool, error: GatewayError, k: Key)
    requires Inv(g, restored) && k in g.index
    ensures Forward(g.index[k], Entry(DoApplied(g, i, applied, error), k))
  {
  }

  lemma StepMovesForward(g: Gate, restored: set<Key>, e: Event, t: Gate, k: Key)
    requires Inv(g, restored) && Step(g, e, t) && k in g.index
    ensures Forward(g.index[k], Entry(t, k))
  {
    match e
    case Submit(r) =>
      assert Immediate(g, r) == None ==> r.key.value != k;
      assert Entry(t, k) == Some(g.index[k]);
    case Plain(_, _) => assert t.index == g.index;
    case Poll(i, lsn, accepted) => PollMovesForward(g, restored, i, lsn, accepted, k);
    case CommandApplied(i, applied, error) => AppliedMovesForward(g, restored, i, applied, error, k);
  }

  /** In every run: once its record is in the log, a key keeps its content and its LSN and at most comes to an end; and
      once it has come to an end, its entry never changes again. */
  lemma {:induction false} LoggedIsKept(states: seq<Gate>, events: seq<Event>, i: nat, k: Key)
    requires IsRun(states, events) && i <= |events| && k in states[i].index && !states[i].index[k].state.Registered?
    ensures var a, g := states[i].index[k], states[|events|];
            && k in g.index && g.index[k].fingerprint == a.fingerprint && g.index[k].lsn == a.lsn && !g.index[k].state.Registered?
            && (a.Final() ==> g.index[k] == a)
    decreases |events| - i
  {
    if i < |events| {
      var n := |events| - 1;
      LoggedIsKept(states[..n + 1], events[..n], i, k);
      RunKeeps(states[..n + 1], events[..n]);
      StepMovesForward(states[n], states[0].index.Keys, events[n], states[n + 1], k);
    }
  }

  /** In every run: a request repeated after its command came to an end is answered at once and always alike: with the
      outcome if its content is the same, and as a conflict if it is not; and the repetition changes nothing else. */
  lemma RetriesAgree(states: seq<Gate>, events: seq<Event>, i: nat, k: Key, r: Request)
    requires IsRun(states, events) && i <= |events| && k in states[i].index && states[i].index[k].Final()
    requires r.key == Some(k) && r.session.Some?
    ensures var a, g := states[i].index[k], states[|events|];
            && Immediate(g, r) == Some(Known(a, r))
            && DoSubmit(g, r) == g.(calls := g.calls + 1, completed := g.completed + multiset{g.calls})
            && (r.fingerprint == a.fingerprint ==> Known(a, r).lsn == a.lsn && (Known(a, r).status.WasApplied? <==> a.state.Applied?))
            && (r.fingerprint != a.fingerprint ==> Known(a, r).error == IdempotencyConflict)
  {
    LoggedIsKept(states, events, i, k);
  }

  // ---- The gateway ----

  /** The durable part of the gateway. The history is kept for the proof only. */
  class GatewayCore {
    var index: map<Key, Slot>
    var tickets: map<nat, Ticketed>
    var commands: map<nat, Buffered>
    var ingress: nat
    /** Numbers the submissions; a ticket keeps the number in place of the completion to call. */
    var calls: nat
    ghost var completed: multiset<nat>
    ghost var appended: multiset<Key>
    ghost var failed: multiset<Key>
    ghost var submitted: multiset<Key>
    ghost var refused: multiset<Key>

    ghost function State(): Gate
      reads this
    {
      Gate(index, tickets, commands, ingress, calls, completed, appended, failed, submitted, refused)
    }

    constructor (index: map<Key, Slot>)
      requires forall k | k in index :: !index[k].state.Registered?
      ensures Start(State()) && this.index == index
    {
      this.index, tickets, commands, ingress := index, map[], map[], 0;
      calls, completed, appended, failed, submitted, refused := 0, multiset{}, multiset{}, multiset{}, multiset{}, multiset{};
    }

    method SubmitDurable(r: Request) returns (receipt: Option<Receipt>)
      modifies this
      ensures State() == DoSubmit(old(State()), r) && receipt == Immediate(old(State()), r)
    {
      receipt := Check(r);
      if receipt.Some? {
        completed := completed + multiset{calls};
        calls := calls + 1;
      } else {
        Register(r.key.value, r.session.value, r.admitted.value, r.fingerprint, r.sequence);
      }
    }

    /** Why the request can be answered at once, if it can. */
    method Check(r: Request) returns (receipt: Option<Receipt>)
      ensures receipt == Immediate(State(), r)
    {
      if r.session == None || r.key == None {
        return Some(Rejection(InvalidRequest, r.sequence));
      }
      if r.key.value in index {
        return Some(Known(index[r.key.value], r));
      }
      if r.admitted == None {
        return Some(Rejection(NotAdmitted(r.refusal), r.sequence));
      }
      if !r.logReady {
        return Some(Rejection(DurabilityUnavailable, r.sequence));
      }
      if ingress == U64_MAX {
        return Some(Rejection(LimitExceeded, r.sequence));
      }
      receipt := if r.appends then None else Some(Rejection(DurabilityUnavailable, r.sequence));
    }

    method Register(key: Key, session: nat, tick: nat, fingerprint: seq<Byte>, sequence: nat)
      modifies this
      ensures State() == Registering(old(State()), key, session, tick, fingerprint, sequence)
    {
      ingress := ingress + 1;
      index := index[key := Slot(fingerprint, Registered, 0, sequence, 0, NoError)];
      tickets := tickets[ingress := Ticketed(key, session, sequence, tick, calls)];
      calls := calls + 1;
      appended := appended + multiset{key};
    }

    /** One ticket that the log has answered. */
    method PollTicket(i: nat, lsn: Option<nat>, accepted: bool) returns (receipt: Receipt)
      requires i in tickets
      modifies this
      ensures State() == DoPoll(old(State()), i, lsn, accepted)
      ensures lsn == None ==> receipt == Receipt(WasRejected, DurabilityUnavailable, old(tickets)[i].sequence, 0, 0)
      ensures lsn.Some? && accepted ==> receipt == Receipt(DurablyAccepted, NoError, old(tickets)[i].sequence, i, lsn.value)
      ensures lsn.Some? && !accepted ==> receipt == Receipt(WasRejected, LimitExceeded, old(tickets)[i].sequence, i, lsn.value)
    {
      var pending := tickets[i];
      if lsn == None {
        Forget(i, pending);
        receipt := Receipt(WasRejected, DurabilityUnavailable, pending.sequence, 0, 0);
      } else if accepted {
        Deliver(i, pending, lsn.value);
        receipt := Receipt(DurablyAccepted, NoError, pending.sequence, i, lsn.value);
      } else {
        TurnAway(i, pending, lsn.value);
        receipt := Receipt(WasRejected, LimitExceeded, pending.sequence, i, lsn.value);
      }
    }

    /** The ticket's completion is called. */
    method Close(i: nat, call: nat)
      modifies this`tickets, this`completed
      ensures tickets == old(tickets) - {i} && completed == old(completed) + multiset{call}
    {
      tickets := tickets - {i};
      completed := completed + multiset{call};
    }

    method Forget(i: nat, pending: Ticketed)
      modifies this
      ensures State() == Forgotten(old(State()), i, pending)
    {
      Close(i, pending.call);
      index := index - {pending.key};
      failed := failed + multiset{pending.key};
    }

    method Deliver(i: nat, pending: Ticketed, lsn: nat)
      modifies this
      ensures State() == Delivered(old(State()), i, pending, lsn)
    {
      Close(i, pending.call);
      MarkLogged(pending.key, lsn, i);
      commands := commands[i := Buffered(pending.session, pending.sequence, Some(pending.key))];
      submitted := submitted + multiset{pending.key};
    }

    method TurnAway(i: nat, pending: Ticketed, lsn: nat)
      modifies this
      ensures State() == TurnedAway(old(State()), i, pending, lsn)
    {
      Close(i, pending.call);
      MarkLogged(pending.key, lsn, i);
      MarkFinal(pending.key, false, LimitExceeded);
      assert index == Changed(old(index), pending.key, WithRefusal(lsn, i));
      refused := refused + multiset{pending.key};
    }

    method MarkLogged(key: Key, lsn: nat, ingress: nat)
      modifies this`index
      ensures index == Changed(old(index), key, WithLog(lsn, ingress))
    {
      if key in index {
        index := index[key := index[key].(state := Logged, lsn := lsn, ingress := ingress)];
      }
    }

    method MarkFinal(key: Key, applied: bool, error: GatewayError)
      modifies this`index
      ensures index == Changed(old(index), key, WithEnd(applied, error))
    {
      if key in index {
        index := index[key := index[key].(state := if applied then Applied else Rejected, error := if applied then NoError else error)];
      }
    }

    method OnCommandApplied(i: nat, applied: bool, error: GatewayError) returns (known: bool)
      modifies this
      ensures State() == DoApplied(old(State()), i, applied, error)
      ensures known == (i in old(commands))
    {
      known := i in commands;
      if known {
        var key := commands[i].key;
        commands := commands - {i};
        if key.Some? {
          MarkFinal(key.value, applied, error);
        }
      }
    }
  }
}
