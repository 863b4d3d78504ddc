/** What replay reads from the records of the log, and what the live run's own records read back as. */
module LogReading {
  import opened Integers
  import opened Options
  import opened LeBytes
  import opened WalCodec
  import opened WalScan
  import opened WorldModel
  import opened CommandBuffer
  import opened DurableCodec
  import opened DurableRecords
  import opened Replay
  import opened Ingress

  const EXTERNAL_COMMAND := 0
  const COMMAND_OUTCOME := 4
  const STATE_HASH := 5
  const CHECKPOINT_MARKER := 6
  const HASH_POINT_BYTES := 16

  /** A log record as the tool sees it; a payload that does not decode carries nothing. */
  datatype LogRecord =
    | CommandRecord(input: Option<Input>)
    | HashRecord(point: Option<(nat, nat)>)
    | NoteRecord
    | ForeignRecord

  predicate Decodes(r: LogRecord) {
    match r
    case CommandRecord(input) => input.Some?
    case HashRecord(point) => point.Some?
    case NoteRecord => true
    case ForeignRecord => false
  }

  function CommandsOf(records: seq<LogRecord>): seq<Input> {
    if records == [] then []
    else
      var r := records[|records| - 1];
      CommandsOf(records[..|records| - 1]) + if r.CommandRecord? && r.input.Some? then [r.input.value] else []
  }

  /** A recovered command as the tool submits it: the LSN is the record's, and there is no ingress number. */
  function InputOf(lsn: nat, r: Recovered): Input {
    Input(r.tick, r.payload, Meta(0, r.expectedVersion, lsn))
  }

  function ReadCommand(lsn: nat, payload: seq<Byte>): Option<Input> {
    var r := DurableCodec.Decode(payload);
    if r == None then None else Some(InputOf(lsn, r.value))
  }

  function HashPointBytes(tick: nat, hash: nat): seq<Byte> {
    Le(8, tick) + Le(8, hash)
  }

  function ReadHashPoint(payload: seq<Byte>): Option<(nat, nat)> {
    if |payload| != HASH_POINT_BYTES then None else Some((Value(payload[..8]), Value(payload[8..])))
  }

  function Read(s: Scanned): LogRecord {
    if s.record.kind == EXTERNAL_COMMAND then CommandRecord(ReadCommand(s.lsn, s.record.payload))
    else if s.record.kind == STATE_HASH then HashRecord(ReadHashPoint(s.record.payload))
    else if s.record.kind == COMMAND_OUTCOME || s.record.kind == CHECKPOINT_MARKER then NoteRecord
    else ForeignRecord
  }

  method ReadRecord(s: Scanned) returns (r: LogRecord)
    ensures r == Read(s)
  {
    if s.record.kind == EXTERNAL_COMMAND {
      var recovered := DecodeCommandRecord(s.record.payload);
      r := CommandRecord(if recovered == None then None else Some(InputOf(s.lsn, recovered.value)));
    } else if s.record.kind == STATE_HASH {
      r := HashRecord(ReadHashPoint(s.record.payload));
    } else if s.record.kind == COMMAND_OUTCOME || s.record.kind == CHECKPOINT_MARKER {
      r := NoteRecord;
    } else {
      r := ForeignRecord;
    }
  }

  /** A recorded hash reads back. */
  lemma HashPointReadsBack(tick: nat, hash: nat)
    requires tick < U64 && hash < U64
    ensures ReadHashPoint(HashPointBytes(tick, hash)) == Some((tick, hash))
  {
    Limits();
    ValueOfLe(8, tick);
    ValueOfLe(8, hash);
    var bytes := HashPointBytes(tick, hash);
    assert bytes[..8] == Le(8, tick) && bytes[8..] == Le(8, hash);
  }

  // ---- The live run's own records ----

  function Unnumber(i: Input): Input {
    i.(meta := i.meta.(ingress := 0))
  }

  /** A durable command of the live run: what was asked for, and the tick and numbers it was given. */
  datatype Issued = Issued(principal: Text, request: RequestId, tick: nat, command: External, ingress: nat, lsn: nat) {
    predicate InRange() {
      FORM.Fits(principal) && tick < U64 && command.InRange()
    }

    /** The log keeps all of it but the ingress number. */
    predicate IsKept() {
      Replayable(principal, tick, command)
    }

    /** What the live run submits. */
    function LiveInput(): Input {
      Input(tick, Submitted(command), Meta(ingress, command.expectedVersion, lsn))
    }

    ghost function Record(): Scanned {
      Scanned(lsn, WalRecord(EXTERNAL_COMMAND, tick, RecordBytes(principal, request, tick, command)))
    }

    /** The record decodes to what the live run submits, but for the ingress number. */
    ghost predicate ReadsBack() {
      Read(Record()) == CommandRecord(Some(Unnumber(LiveInput())))
    }
  }

  function LiveInputs(issued: seq<Issued>): (inputs: seq<Input>)
    ensures |inputs| == |issued|
  {
    seq(|issued|, i requires 0 <= i < |issued| => issued[i].LiveInput())
  }

  function Reads(log: seq<Scanned>): seq<LogRecord> {
    seq(|log|, i requires 0 <= i < |log| => Read(log[i]))
  }

  function CommandRecords(log: seq<Scanned>): seq<Scanned> {
    if log == [] then []
    else CommandRecords(log[..|log| - 1]) + if log[|log| - 1].record.kind == EXTERNAL_COMMAND then [log[|log| - 1]] else []
  }

  /** The command records of the log are those of the live run's commands, in order. */
  ghost predicate OwnRecords(log: seq<Scanned>, issued: seq<Issued>) {
    var commands := CommandRecords(log);
    |commands| == |issued| && forall i | 0 <= i < |issued| :: commands[i] == issued[i].Record()
  }

  predicate AllInRange(issued: seq<Issued>) {
    forall i | 0 <= i < |issued| :: issued[i].InRange()
  }

  predicate AllKept(issued: seq<Issued>) {
    forall i | 0 <= i < |issued| :: issued[i].IsKept()
  }

  predicate CommandsRead(log: seq<Scanned>) {
    forall i | 0 <= i < |log| && log[i].record.kind == EXTERNAL_COMMAND :: Decodes(Read(log[i]))
  }

  lemma CommandReadsBackIff(c: Issued)
    requires c.InRange()
    ensures c.ReadsBack() <==> c.IsKept()
  {
    var bytes := RecordBytes(c.principal, c.request, c.tick, c.command);
    if c.IsKept() {
      RecordRoundTripIff(c.principal, c.request, c.tick, c.command);
    } else if c.ReadsBack() {
      assert DurableCodec.Decode(bytes).value.payload == Submitted(c.command);
      RecoveredFits(bytes);
      var target: nat, p: Params :| ParamsFit(p) && DurableCodec.Kept(p) == p && target > 0 && Submitted(c.command) == Replayed(target, p);
      ReplayedFits(target, p, c.command);
      DecodeOfFitting(c.principal, c.request, c.tick, c.command);
      SameTarget(c.command);
    }
  }

  function Listed<T>(x: Option<T>): seq<T> {
    if x.Some? then [x.value] else []
  }

  ghost predicate AllReadBack(issued: seq<Issued>) {
    forall i | 0 <= i < |issued| :: issued[i].ReadsBack()
  }

  lemma OneMoreReadsBack(before: seq<Input>, ok: bool, read: Option<Input>, inputs: seq<Input>, live: Input)
    requires read.Some? ==> read.value.meta.ingress == 0
    ensures ok && read.Some? && SameCommands(before + Listed(read), inputs + [live]) <==>
            ok && SameCommands(before, inputs) && read == Some(Unnumber(live))
  {
    if read.Some? {
      AppendedSame(before, inputs, read.value, live);
    }
  }

  lemma AllReadBackAppends(issued: seq<Issued>, c: Issued)
    ensures AllReadBack(issued + [c]) <==> AllReadBack(issued) && c.ReadsBack()
  {
    if AllReadBack(issued + [c]) {
      assert (issued + [c])[|issued|] == c;
      assert forall i | 0 <= i < |issued| :: (issued + [c])[i] == issued[i];
    }
  }

  lemma ReadsAppend(init: seq<Scanned>, last: Scanned)
    ensures var r := Read(last);
            && CommandsOf(Reads(init + [last])) == CommandsOf(Reads(init)) + (if r.CommandRecord? then Listed(r.input) else [])
            && (CommandsRead(init + [last]) <==> CommandsRead(init) && (r.CommandRecord? ==> r.input.Some?))
  {
    var log := init + [last];
    assert Reads(log)[..|init|] == Reads(init) && Reads(log)[|init|] == Read(last);
    assert log[|init|] == last && forall i | 0 <= i < |init| :: log[i] == init[i];
  }

  lemma AppendedSame(again: seq<Input>, inputs: seq<Input>, a: Input, b: Input)
    ensures SameCommands(again + [a], inputs + [b]) <==> SameCommands(again, inputs) && a == b.(meta := b.meta.(ingress := a.meta.ingress))
  {
    if SameCommands(again + [a], inputs + [b]) {
      assert again == (again + [a])[..|again|] && inputs == (inputs + [b])[..|inputs|];
      assert (again + [a])[|again|] == a && (inputs + [b])[|inputs|] == b;
    }
  }

  lemma LastApart<T>(s: seq<T>)
    requires s != []
    ensures s == s[..|s| - 1] + [s[|s| - 1]]
  {
  }

  lemma OwnRecordsSplit(init: seq<Scanned>, last: Scanned, issued: seq<Issued>)
    requires OwnRecords(init + [last], issued)
    ensures last.record.kind != EXTERNAL_COMMAND ==> OwnRecords(init, issued)
    ensures last.record.kind == EXTERNAL_COMMAND ==>
              issued != [] && OwnRecords(init, issued[..|issued| - 1]) && last == issued[|issued| - 1].Record()
  {
    assert (init + [last])[..|init|] == init;
    assert CommandRecords(init) + [] == CommandRecords(init);
  }

  /** All command records decode, to what the live run submitted but for the ingress numbers. */
  predicate ReadBack(log: seq<Scanned>, issued: seq<Issued>) {
    CommandsRead(log) && SameCommands(CommandsOf(Reads(log)), LiveInputs(issued))
  }

  lemma CommandReadsBack(init: seq<Scanned>, last: Scanned, issued: seq<Issued>, c: Issued)
    requires last == c.Record() && (ReadBack(init, issued) <==> AllReadBack(issued))
    ensures ReadBack(init + [last], issued + [c]) <==> AllReadBack(issued + [c])
  {
    assert LiveInputs(issued + [c]) == LiveInputs(issued) + [c.LiveInput()];
    ReadsAppend(init, last);
    AllReadBackAppends(issued, c);
    OneMoreReadsBack(CommandsOf(Reads(init)), CommandsRead(init), Read(last).input, LiveInputs(issued), c.LiveInput());
  }

  lemma OtherReadsBack(init: seq<Scanned>, last: Scanned, issued: seq<Issued>)
    requires last.record.kind != EXTERNAL_COMMAND
    ensures ReadBack(init + [last], issued) == ReadBack(init, issued)
  {
    ReadsAppend(init, last);
    assert CommandsOf(Reads(init)) + [] == CommandsOf(Reads(init));
  }

  lemma {:induction false} OwnCommandsReadBack(log: seq<Scanned>, issued: seq<Issued>)
    requires OwnRecords(log, issued)
    ensures ReadBack(log, issued) <==> AllReadBack(issued)
  {
    if log != [] {
      var init, last := log[..|log| - 1], log[|log| - 1];
      LastApart(log);
      OwnRecordsSplit(init, last, issued);
      if last.record.kind == EXTERNAL_COMMAND {
        var earlier, c := issued[..|issued| - 1], issued[|issued| - 1];
        LastApart(issued);
        OwnCommandsReadBack(init, earlier);
        CommandReadsBack(init, last, earlier, c);
      } else {
        OwnCommandsReadBack(init, issued);
        OtherReadsBack(init, last, issued);
      }
    }
  }

  /** The commands read from the live run's own log are those it submitted, but for their ingress numbers, exactly if
      the log could keep each of them. */
  lemma OwnCommandsReadBackIff(log: seq<Scanned>, issued: seq<Issued>)
    requires OwnRecords(log, issued) && AllInRange(issued)
    ensures ReadBack(log, issued) <==> AllKept(issued)
  {
    OwnCommandsReadBack(log, issued);
    forall i | 0 <= i < |issued|
      ensures issued[i].ReadsBack() <==> issued[i].IsKept()
    {
      CommandReadsBackIff(issued[i]);
    }
  }

  predicate OthersDecode(log: seq<Scanned>) {
    forall i | 0 <= i < |log| && log[i].record.kind != EXTERNAL_COMMAND :: Decodes(Read(log[i]))
  }

  /** The commands from `next` on have no ingress number. */
  function Unnumbered(next: nat): Numbering {
    (sequence: nat, ingress: nat) => if sequence < next then ingress else 0
  }

  lemma {:induction false} ReadUnnumbered(log: seq<Scanned>)
    ensures forall i | 0 <= i < |CommandsOf(Reads(log))| :: CommandsOf(Reads(log))[i].meta.ingress == 0
  {
    if log != [] {
      ReadUnnumbered(log[..|log| - 1]);
      assert Reads(log)[..|log| - 1] == Reads(log[..|log| - 1]);
    }
  }

  lemma ReadingGives(log: seq<Scanned>, next: nat)
    ensures Gives(Unnumbered(next), next, CommandsOf(Reads(log)))
  {
    ReadUnnumbered(log);
  }
}
