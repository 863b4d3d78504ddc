/** Writing and reading durable records, and which admitted commands replay as they ran. */
module DurableRecords {
  import opened Integers
  import opened Options
  import opened LeBytes
  import opened Parsing
  import opened WorldModel
  import opened BagCodec
  import opened CommandBuffer
  import opened DurableCodec

  // ---- Writing ----

  method WriteCreation(writer: PayloadWriter, p: Params)
    requires p.CreateParams?
    modifies writer
    ensures writer.bytes == old(writer.bytes) + CreateBytes(p)
  {
    ghost var names, place, bag :=
      TextBytes(2, p.semanticType) + TextBytes(2, p.geometryRef), WriteMany(IntBytes(8), [p.x, p.y, p.z]), BagBytes(FORM, p.properties);
    writer.Text(2, p.semanticType);
    writer.Text(2, p.geometryRef);
    Appended(old(writer.bytes), TextBytes(2, p.semanticType), TextBytes(2, p.geometryRef));
    WriteInts(writer, 8, [p.x, p.y, p.z]);
    WriteBag(writer, FORM, p.properties);
    Appended(old(writer.bytes) + names, place, bag);
    Appended(old(writer.bytes), names, place + bag);
  }

  method WriteAssignment(writer: PayloadWriter, key: Text, value: PropertyValue)
    modifies writer
    ensures writer.bytes == old(writer.bytes) + SetBytes(key, value)
  {
    writer.Text(2, key);
    WriteValue(writer, FORM, value);
    Appended(old(writer.bytes), TextBytes(2, key), ValueBytes(FORM, value));
  }

  method WriteParams(writer: PayloadWriter, p: Params)
    modifies writer
    ensures writer.bytes == old(writer.bytes) + ParamsBytes(p)
  {
    match p
    case SetParams(key, value) =>
      writer.Int(1, OPERATION_SET);
      WriteAssignment(writer, key, value);
      Appended(old(writer.bytes), Le(1, OPERATION_SET), SetBytes(key, value));
    case CreateParams(_, _, _, _, _, _, _) =>
      writer.Int(1, OPERATION_CREATE);
      WriteCreation(writer, p);
      Appended(old(writer.bytes), Le(1, OPERATION_CREATE), CreateBytes(p));
    case DestroyParams =>
      writer.Int(1, OPERATION_DESTROY);
      assert Le(1, OPERATION_DESTROY) + [] == Le(1, OPERATION_DESTROY);
  }

  method WriteContent(writer: PayloadWriter, c: External)
    modifies writer
    ensures writer.bytes == old(writer.bytes) + Fingerprint(c)
  {
    WriteInts(writer, 8, Numbers(c));
    WriteParams(writer, c.params);
    Appended(old(writer.bytes), WriteMany(IntBytes(8), Numbers(c)), ParamsBytes(c.params));
  }

  method MakeFingerprint(c: External) returns (bytes: seq<Byte>)
    ensures bytes == Fingerprint(c)
  {
    var writer := new PayloadWriter();
    WriteContent(writer, c);
    bytes := writer.bytes;
  }

  method WriteIdentity(writer: PayloadWriter, principal: Text, request: RequestId)
    modifies writer
    ensures writer.bytes == old(writer.bytes) + IdentityBytes(principal, request)
  {
    writer.Int(2, FORMAT_VERSION);
    ghost var head := writer.bytes;
    writer.Text(2, principal);
    writer.Raw(request);
    Appended(head, TextBytes(2, principal), request);
    Appended(old(writer.bytes), Le(2, FORMAT_VERSION), TextBytes(2, principal) + request);
  }

  method WriteTimed(writer: PayloadWriter, tick: nat, c: External)
    modifies writer
    ensures writer.bytes == old(writer.bytes) + (Le(8, tick) + Fingerprint(c))
  {
    writer.Int(8, tick);
    WriteContent(writer, c);
    Appended(old(writer.bytes), Le(8, tick), Fingerprint(c));
  }

  method EncodeCommandRecord(principal: Text, request: RequestId, tick: nat, c: External) returns (bytes: seq<Byte>)
    ensures bytes == RecordBytes(principal, request, tick, c)
  {
    var writer := new PayloadWriter();
    WriteIdentity(writer, principal, request);
    WriteTimed(writer, tick, c);
    bytes := writer.bytes;
  }

  // ---- Reading ----

  method ReadNamed(reader: PayloadReader) returns (text: Option<Text>)
    requires reader.Valid()
    modifies reader
    ensures reader.Valid() && Follows(text, NamedTexts()(old(reader.Rest())), reader.Rest())
  {
    text := reader.Text(2, TEXT_LIMIT);
    if text == Some([]) {
      text := None;
    }
  }

  method ReadAssignment(reader: PayloadReader) returns (raw: Option<(Text, PropertyValue)>)
    requires reader.Valid()
    modifies reader
    ensures reader.Valid() && Follows(raw, SetTaker()(old(reader.Rest())), reader.Rest())
  {
    var key := ReadNamed(reader);
    if key == None {
      return None;
    }
    var value := ReadValue(reader, FORM);
    raw := if value == None then None else Some((key.value, value.value));
  }

  method ReadTypes(reader: PayloadReader) returns (names: Option<(Text, Text)>)
    requires reader.Valid()
    modifies reader
    ensures reader.Valid() && Follows(names, Both(NamedTexts(), Texts(2, TEXT_LIMIT))(old(reader.Rest())), reader.Rest())
  {
    var semanticType := ReadNamed(reader);
    if semanticType == None {
      return None;
    }
    var geometryRef := reader.Text(2, TEXT_LIMIT);
    names := if geometryRef == None then None else Some((semanticType.value, geometryRef.value));
  }

  method ReadCreation(reader: PayloadReader) returns (raw: Option<RawCreate>)
    requires reader.Valid()
    modifies reader
    ensures reader.Valid() && Follows(raw, CreateTaker()(old(reader.Rest())), reader.Rest())
  {
    var names := ReadTypes(reader);
    if names == None {
      return None;
    }
    var place := ReadInts(reader, 8, 3);
    if place == None {
      return None;
    }
    var properties := ReadBag(reader, FORM, MAX_PROPERTIES);
    raw := if properties == None then None else Some((names.value, (place.value, properties.value)));
  }

  method ReadParams(reader: PayloadReader) returns (params: Option<Params>)
    requires reader.Valid()
    modifies reader
    ensures reader.Valid() && Follows(params, TakeParams(old(reader.Rest())), reader.Rest())
  {
    var operation := reader.Int(1);
    if operation == None {
      return None;
    }
    if operation.value == OPERATION_SET {
      var raw := ReadAssignment(reader);
      params := if raw == None then None else Some(ToSet(raw.value));
    } else if operation.value == OPERATION_CREATE {
      var raw := ReadCreation(reader);
      params := if raw == None then None else Some(ToCreate(raw.value));
    } else if operation.value == OPERATION_DESTROY {
      params := Some(DestroyParams);
    } else {
      params := None;
    }
  }

  method ReadIdentity(reader: PayloadReader) returns (identity: Option<Identity>)
    requires reader.Valid()
    modifies reader
    ensures reader.Valid() && Follows(identity, IdentityTaker()(old(reader.Rest())), reader.Rest())
    ensures identity.Some? ==> |identity.value.1.1| == REQUEST_BYTES
  {
    var version := reader.Int(2);
    if version == None || version.value != FORMAT_VERSION {
      return None;
    }
    var principal := reader.Text(2, TEXT_LIMIT);
    if principal == None {
      return None;
    }
    var request := reader.Raw(REQUEST_BYTES);
    identity := if request == None then None else Some((version.value, (principal.value, request.value)));
  }

  method ReadContent(reader: PayloadReader) returns (content: Option<(seq<nat>, Params)>)
    requires reader.Valid()
    modifies reader
    ensures reader.Valid() && Follows(content, ContentTaker()(old(reader.Rest())), reader.Rest())
  {
    var numbers := ReadInts(reader, 8, 4);
    if numbers == None {
      return None;
    }
    var params := ReadParams(reader);
    content := if params == None then None else Some((numbers.value, params.value));
  }

  method ReadRecord(reader: PayloadReader) returns (raw: Option<RawRecord>)
    requires reader.Valid()
    modifies reader
    ensures reader.Valid() && Follows(raw, RecordTaker()(old(reader.Rest())), reader.Rest())
    ensures raw.Some? ==> |raw.value.0.1.1| == REQUEST_BYTES
  {
    var identity := ReadIdentity(reader);
    if identity == None {
      return None;
    }
    var tick := reader.Int(8);
    if tick == None {
      return None;
    }
    var content := ReadContent(reader);
    raw := if content == None then None else Some((identity.value, (tick.value, content.value)));
  }

  method DecodeCommandRecord(payload: seq<Byte>) returns (recovered: Option<Recovered>)
    ensures recovered == Decode(payload)
  {
    var reader := new PayloadReader(payload);
    var raw := ReadRecord(reader);
    if raw == None || reader.offset != |reader.bytes| {
      return None;
    }
    assert reader.Rest() == [];
    recovered := FromRaw(raw.value);
  }

  // ---- Admission ----

  datatype Admission = Admission(lead: nat, maxLead: nat, maxProperties: nat)

  /** The tick an admitted command is for. `permitted` stands for the budget, the authorization and the ownership. */
  function Admitted(a: Admission, current: nat, permitted: bool, c: External): Option<nat> {
    var tick := if c.hint != 0 then c.hint else current + a.lead;
    if tick < current + 1 || tick > current + a.maxLead || !permitted then None
    else
      match c.params
      case CreateParams(requested, _, _, _, _, _, properties) =>
        if requested == 0 || |properties| > a.maxProperties then None else Some(tick)
      case _ => if c.target == 0 then None else Some(tick)
  }

  /** What an external command asks for is done when the buffer executes it: the object asked for enters as described, the target
      goes, or the property of the target reads the value. */
  lemma ExternalIsDone(w: WorldValue, c: External)
    ensures var (t, applied) := Perform(w, Submitted(c));
            applied ==>
              match c.params
              case SetParams(key, value) => c.target in t.objects && key in t.objects[c.target].properties && t.objects[c.target].properties[key] == value
              case CreateParams(requested, semanticType, geometryRef, x, y, z, properties) =>
                && requested in t.objects && requested !in w.objects
                && t.objects[requested].semanticType == semanticType && t.objects[requested].geometryRef == geometryRef
                && t.objects[requested].x == x && t.objects[requested].y == y && t.objects[requested].z == z
                && t.objects[requested].properties == properties && t.objects[requested].relations == []
              case DestroyParams => c.target in w.objects && c.target !in t.objects
  {
  }

  /** What is admitted is for a tick that is still to come and no further ahead than allowed: the one hinted at, or the lead after
      the current one; the caller has the right to it, and it names what it is for. */
  lemma AdmittedIff(a: Admission, current: nat, permitted: bool, c: External, tick: nat)
    ensures Admitted(a, current, permitted, c) == Some(tick)
       <==> && current < tick <= current + a.maxLead && permitted
            && (if c.hint == 0 then tick == current + a.lead else tick == c.hint)
            && (if c.params.CreateParams? then c.params.requested > 0 && |c.params.properties| <= a.maxProperties else c.target > 0)
  {
  }

  /** An admitted command replays as it ran exactly if its texts fit and name what they must, and a creation is for
      the target: admission checks the identifier a creation asks for, and the record keeps the target. */
  lemma AdmittedReplaysIff(a: Admission, current: nat, permitted: bool, principal: Text, request: RequestId, tick: nat, c: External)
    requires Admitted(a, current, permitted, c) == Some(tick) && c.InRange() && current + a.maxLead < U64
    ensures Decode(RecordBytes(principal, request, tick, c)) ==
              Some(Recovered(principal, request, tick, c.sequence, c.expectedVersion, Submitted(c)))
       <==> FORM.Fits(principal) && ParamsFit(c.params) && (c.params.CreateParams? ==> c.params.requested == c.target)
  {
    RecordRoundTripIff(principal, request, tick, c);
  }

  /** An admitted creation that leaves its target unset is logged and run, and its record cannot be read back. */
  lemma UnreplayableCreation(a: Admission, current: nat, principal: Text, request: RequestId, tick: nat, c: External)
    requires Admitted(a, current, true, c) == Some(tick) && tick < U64 && FORM.Fits(principal)
    requires c.InRange() && c.target == 0 && c.params.CreateParams? && ParamsFit(c.params)
    ensures Decode(RecordBytes(principal, request, tick, c)) == None
  {
    DecodeOfFitting(principal, request, tick, c);
  }

  const UNTARGETED := External(1, 0, 0, 0, CreateParams(5, [65], [], 0, 0, 0, map[]))

  /** Concretely: a creation of the object with identifier five that sets no target and no tick. Wherever a lead is within
      the largest one allowed it is admitted, and its record cannot be read back. */
  lemma UntargetedCreationIsLost(a: Admission, current: nat, principal: Text, request: RequestId)
    requires 1 <= a.lead <= a.maxLead && current + a.lead < U64 && FORM.Fits(principal)
    ensures Admitted(a, current, true, UNTARGETED) == Some(current + a.lead)
    ensures Decode(RecordBytes(principal, request, current + a.lead, UNTARGETED)) == None
  {
    UnreplayableCreation(a, current, principal, request, current + a.lead, UNTARGETED);
  }

  // ---- Outcome records ----

  datatype RecoveredOutcome = RecoveredOutcome(
    principal: Text, request: RequestId, sequence: nat, ingress: nat, applied: bool, error: nat)

  type RawOutcome = (Identity, (seq<nat>, (nat, nat)))

  function OutcomeBytes(principal: Text, request: RequestId, sequence: nat, ingress: nat, applied: bool, error: nat): seq<Byte> {
    IdentityBytes(principal, request) +
    (WriteMany(IntBytes(8), [sequence, ingress]) + (Le(1, if applied then 1 else 0) + Le(2, error)))
  }

  function OutcomeTaker(): Taker<RawOutcome> {
    Both(IdentityTaker(), Both(Manys(Ints(8), 2), Both(Ints(1), Ints(2))))
  }

  lemma OutcomeRequest(s: seq<Byte>)
    requires OutcomeTaker()(s).Got?
    ensures |OutcomeTaker()(s).value.0.1.1| == REQUEST_BYTES && |OutcomeTaker()(s).value.0.1.0| <= TEXT_LIMIT
  {
    assert IdentityTaker()(s).Got?;
    var version := VersionTaker()(s);
    assert version.Got? && Both(Texts(2, TEXT_LIMIT), Fixed(REQUEST_BYTES))(version.rest).Got?;
    var text := Texts(2, TEXT_LIMIT)(version.rest);
    assert text.Got? && Fixed(REQUEST_BYTES)(text.rest).Got?;
  }

  /** An applied command has no error, whatever the record says. */
  function DecodeOutcome(payload: seq<Byte>): Option<RecoveredOutcome> {
    match OutcomeTaker()(payload)
    case Fail => None
    case Got(raw, left) =>
      OutcomeRequest(payload);
      var (numbers, (state, error)) := raw.1;
      if left != [] || state > 1 then None
      else Some(RecoveredOutcome(raw.0.1.0, raw.0.1.1, At(numbers, 0), At(numbers, 1), state == 1, if state == 1 then 0 else error))
  }

  lemma OutcomeTakesBack(principal: Text, request: RequestId, sequence: nat, ingress: nat, applied: bool, error: nat)
    requires FORM.Fits(principal) && sequence < U64 && ingress < U64 && error < 0x1_0000
    ensures TakesBack(OutcomeTaker(), OutcomeBytes(principal, request, sequence, ingress, applied, error),
                      ((FORMAT_VERSION, (principal, request)), ([sequence, ingress], (if applied then 1 else 0, error))))
  {
    Limits();
    assert Limit(1) == 256;
    var state := if applied then 1 else 0;
    IdentityTakesBack(principal, request);
    NumbersTakeBack([sequence, ingress]);
    IntTakesBack(1, state);
    IntTakesBack(2, error);
    BothTakeBack(Ints(1), Ints(2), Le(1, state), Le(2, error), state, error);
    BothTakeBack(Manys(Ints(8), 2), Both(Ints(1), Ints(2)), WriteMany(IntBytes(8), [sequence, ingress]), Le(1, state) + Le(2, error),
                 [sequence, ingress], (state, error));
    BothTakeBack(IdentityTaker(), Both(Manys(Ints(8), 2), Both(Ints(1), Ints(2))), IdentityBytes(principal, request),
                 WriteMany(IntBytes(8), [sequence, ingress]) + (Le(1, state) + Le(2, error)),
                 (FORMAT_VERSION, (principal, request)), ([sequence, ingress], (state, error)));
  }

  /** An outcome is read back exactly if the principal's name fits, and success comes without an error. */
  lemma OutcomeRoundTripIff(principal: Text, request: RequestId, sequence: nat, ingress: nat, applied: bool, error: nat)
    requires sequence < U64 && ingress < U64 && error < 0x1_0000
    ensures DecodeOutcome(OutcomeBytes(principal, request, sequence, ingress, applied, error)) ==
              Some(RecoveredOutcome(principal, request, sequence, ingress, applied, error))
       <==> FORM.Fits(principal) && (applied ==> error == 0)
  {
    Limits();
    var bytes := OutcomeBytes(principal, request, sequence, ingress, applied, error);
    if FORM.Fits(principal) {
      OutcomeTakesBack(principal, request, sequence, ingress, applied, error);
      AllTaken(OutcomeTaker(), bytes, ((FORMAT_VERSION, (principal, request)), ([sequence, ingress], (if applied then 1 else 0, error))));
    } else if OutcomeTaker()(bytes).Got? {
      OutcomeRequest(bytes);
    }
  }
}
