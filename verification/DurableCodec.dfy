/** Durable command records: what the log keeps of an external command, and what replay makes of it. */
module DurableCodec {
  import opened Integers
  import opened Options
  import opened LeBytes
  import opened Parsing
  import opened WorldModel
  import opened BagCodec
  import opened CommandBuffer

  const FORMAT_VERSION := 1
  const REQUEST_BYTES := 16
  const TEXT_LIMIT := 0xFFFF
  const MAX_PROPERTIES := 1_000_000
  const OPERATION_SET := 1
  const OPERATION_CREATE := 2
  const OPERATION_DESTROY := 3
  const FORM := TextForm(2, TEXT_LIMIT, 8, true)

  type RequestId = s: seq<Byte> | |s| == REQUEST_BYTES witness seq(REQUEST_BYTES, i => 0)

  /** The three numbers of a position are their 64-bit patterns. */
  datatype Params =
    | SetParams(key: Text, value: PropertyValue)
    | CreateParams(requested: nat, semanticType: Text, geometryRef: Text, x: nat, y: nat, z: nat, properties: Bag)
    | DestroyParams

  datatype External = External(sequence: nat, target: nat, expectedVersion: nat, hint: nat, params: Params) {
    /** The numbers are 64-bit ones. */
    predicate InRange() {
      sequence < U64 && target < U64 && expectedVersion < U64 && hint < U64
    }
  }

  datatype Recovered = Recovered(
    principal: Text, request: RequestId, tick: nat, sequence: nat, expectedVersion: nat, payload: Payload)

  function NewObject(id: nat, p: Params): Object
    requires p.CreateParams?
  {
    Object(id, p.geometryRef, p.x, p.y, p.z, p.semanticType, p.properties, map[], [], [], Staged, 1, 0)
  }

  /** What the live run submits: a creation is for the identifier it asks for, everything else for its target. */
  function Submitted(c: External): Payload {
    match c.params
    case SetParams(key, value) => Assign(c.target, key, value)
    case CreateParams(requested, _, _, _, _, _, _) => Create(NewObject(requested, c.params))
    case DestroyParams => Destroy(c.target)
  }

  /** What replay submits: the record holds no identifier but the target. */
  function Replayed(target: nat, p: Params): Payload {
    match p
    case SetParams(key, value) => Assign(target, key, value)
    case CreateParams(_, _, _, _, _, _, _) => Create(NewObject(target, p))
    case DestroyParams => Destroy(target)
  }

  // ---- The parameters ----

  ghost function SetBytes(key: Text, value: PropertyValue): seq<Byte> {
    TextBytes(2, key) + ValueBytes(FORM, value)
  }

  ghost function CreateBytes(p: Params): seq<Byte>
    requires p.CreateParams?
  {
    (TextBytes(2, p.semanticType) + TextBytes(2, p.geometryRef)) +
    (WriteMany(IntBytes(8), [p.x, p.y, p.z]) + BagBytes(FORM, p.properties))
  }

  ghost function ParamsBytes(p: Params): seq<Byte> {
    match p
    case SetParams(key, value) => Le(1, OPERATION_SET) + SetBytes(key, value)
    case CreateParams(_, _, _, _, _, _, _) => Le(1, OPERATION_CREATE) + CreateBytes(p)
    case DestroyParams => Le(1, OPERATION_DESTROY) + []
  }

  type RawCreate = ((Text, Text), (seq<nat>, Bag))

  function NamedTexts(): Taker<Text> {
    Mapped(Texts(2, TEXT_LIMIT), (text: Text) => text != [], (text: Text) => text)
  }

  function SetTaker(): Taker<(Text, PropertyValue)> {
    Both(NamedTexts(), Values(FORM))
  }

  function CreateTaker(): Taker<RawCreate> {
    Both(Both(NamedTexts(), Texts(2, TEXT_LIMIT)), Both(Manys(Ints(8), 3), Bags(FORM, MAX_PROPERTIES)))
  }

  function At(s: seq<nat>, i: nat): nat {
    if i < |s| then s[i] else 0
  }

  function ToSet(raw: (Text, PropertyValue)): Params {
    SetParams(raw.0, raw.1)
  }

  function ToCreate(raw: RawCreate): Params {
    CreateParams(0, raw.0.0, raw.0.1, At(raw.1.0, 0), At(raw.1.0, 1), At(raw.1.0, 2), raw.1.1)
  }

  /** The parameters after the operation's number. */
  function TakeOperation(operation: nat, s: seq<Byte>): Parsed<Params> {
    if operation == OPERATION_SET then TakeMapped(SetTaker(), _ => true, ToSet, s)
    else if operation == OPERATION_CREATE then TakeMapped(CreateTaker(), _ => true, ToCreate, s)
    else if operation == OPERATION_DESTROY then Got(DestroyParams, s)
    else Fail
  }

  function TakeParams(s: seq<Byte>): Parsed<Params> {
    match TakeInt(1, s)
    case Fail => Fail
    case Got(operation, rest) => TakeOperation(operation, rest)
  }

  function ParamsTaker(): Taker<Params> {
    (s: seq<Byte>) => TakeParams(s)
  }

  /** The parameters as the record holds them. */
  function Kept(p: Params): Params {
    if p.CreateParams? then p.(requested := 0) else p
  }

  predicate ParamsFit(p: Params) {
    match p
    case SetParams(key, value) => key != [] && FORM.Fits(key) && ValueFits(FORM, value)
    case CreateParams(_, semanticType, geometryRef, x, y, z, properties) =>
      semanticType != [] && FORM.Fits(semanticType) && FORM.Fits(geometryRef) && x < U64 && y < U64 && z < U64
      && BagFits(FORM, MAX_PROPERTIES, properties)
    case DestroyParams => true
  }

  lemma NamedTakesBack(text: Text)
    requires text != [] && FORM.Fits(text)
    ensures TakesBack(NamedTexts(), TextBytes(2, text), text)
  {
    TextTakesBack(2, TEXT_LIMIT, text);
    MappedTakeBack(Texts(2, TEXT_LIMIT), (t: Text) => t != [], (t: Text) => t, TextBytes(2, text), text);
  }

  lemma NumbersTakeBack(s: seq<nat>)
    requires forall i | 0 <= i < |s| :: s[i] < U64
    ensures TakesBack(Manys(Ints(8), |s|), WriteMany(IntBytes(8), s), s)
  {
    Limits();
    forall i | 0 <= i < |s|
      ensures TakesBack(Ints(8), IntBytes(8)(s[i]), s[i])
    {
      IntTakesBack(8, s[i]);
    }
    ManysTakeBack(Ints(8), IntBytes(8), s);
  }

  lemma OperationTakesBack(operation: nat, body: seq<Byte>, p: Params)
    requires operation < 256 && forall rest :: TakeOperation(operation, body + rest) == Got(p, rest)
    ensures TakesBack(ParamsTaker(), Le(1, operation) + body, p)
  {
    assert Limit(1) == 256;
    IntTakesBack(1, operation);
    forall rest
      ensures TakeParams((Le(1, operation) + body) + rest) == Got(p, rest)
    {
      assert (Le(1, operation) + body) + rest == Le(1, operation) + (body + rest);
      assert Ints(1)(Le(1, operation) + (body + rest)) == Got(operation, body + rest);
    }
  }

  lemma SetTakesBack(key: Text, value: PropertyValue)
    requires ParamsFit(SetParams(key, value))
    ensures TakesBack(ParamsTaker(), ParamsBytes(SetParams(key, value)), SetParams(key, value))
  {
    NamedTakesBack(key);
    ValueTakesBack(FORM, value);
    BothTakeBack(NamedTexts(), Values(FORM), TextBytes(2, key), ValueBytes(FORM, value), key, value);
    forall rest
      ensures TakeOperation(OPERATION_SET, SetBytes(key, value) + rest) == Got(SetParams(key, value), rest)
    {
      assert SetTaker()(SetBytes(key, value) + rest) == Got((key, value), rest);
    }
    OperationTakesBack(OPERATION_SET, SetBytes(key, value), SetParams(key, value));
  }

  function RawOf(p: Params): RawCreate
    requires p.CreateParams?
  {
    ((p.semanticType, p.geometryRef), ([p.x, p.y, p.z], p.properties))
  }

  lemma RawTakesBack(p: Params)
    requires p.CreateParams? && ParamsFit(p)
    ensures TakesBack(CreateTaker(), CreateBytes(p), RawOf(p))
  {
    var names, texts, bags := NamedTexts(), Texts(2, TEXT_LIMIT), Bags(FORM, MAX_PROPERTIES);
    NamedTakesBack(p.semanticType);
    TextTakesBack(2, TEXT_LIMIT, p.geometryRef);
    BothTakeBack(names, texts, TextBytes(2, p.semanticType), TextBytes(2, p.geometryRef), p.semanticType, p.geometryRef);
    NumbersTakeBack([p.x, p.y, p.z]);
    BagTakesBack(FORM, MAX_PROPERTIES, p.properties);
    BothTakeBack(Manys(Ints(8), 3), bags, WriteMany(IntBytes(8), [p.x, p.y, p.z]), BagBytes(FORM, p.properties), [p.x, p.y, p.z], p.properties);
    BothTakeBack(Both(names, texts), Both(Manys(Ints(8), 3), bags), TextBytes(2, p.semanticType) + TextBytes(2, p.geometryRef),
                 WriteMany(IntBytes(8), [p.x, p.y, p.z]) + BagBytes(FORM, p.properties), RawOf(p).0, RawOf(p).1);
  }

  lemma KeptOfRaw(p: Params)
    requires p.CreateParams?
    ensures ToCreate(RawOf(p)) == Kept(p)
  {
  }

  lemma CreateOperation(p: Params, s: seq<Byte>, rest: seq<Byte>)
    requires p.CreateParams? && CreateTaker()(s) == Got(RawOf(p), rest)
    ensures TakeOperation(OPERATION_CREATE, s) == Got(Kept(p), rest)
  {
    KeptOfRaw(p);
  }

  lemma CreateTakesBack(p: Params)
    requires p.CreateParams? && ParamsFit(p)
    ensures TakesBack(ParamsTaker(), ParamsBytes(p), Kept(p))
  {
    RawTakesBack(p);
    forall rest
      ensures TakeOperation(OPERATION_CREATE, CreateBytes(p) + rest) == Got(Kept(p), rest)
    {
      CreateOperation(p, CreateBytes(p) + rest, rest);
    }
    OperationTakesBack(OPERATION_CREATE, CreateBytes(p), Kept(p));
  }

  lemma ParamsTakeBack(p: Params)
    requires ParamsFit(p)
    ensures TakesBack(ParamsTaker(), ParamsBytes(p), Kept(p))
  {
    match p
    case SetParams(key, value) => SetTakesBack(key, value);
    case CreateParams(_, _, _, _, _, _, _) => CreateTakesBack(p);
    case DestroyParams =>
      assert forall rest: seq<Byte> :: [] + rest == rest;
      OperationTakesBack(OPERATION_DESTROY, [], DestroyParams);
  }

  lemma NumbersInRange(s: seq<Byte>, n: nat)
    requires Manys(Ints(8), n)(s).Got?
    ensures var numbers := Manys(Ints(8), n)(s).value; |numbers| == n && forall i | 0 <= i < n :: numbers[i] < U64
  {
    Limits();
    ManyYield(Ints(8), v => v < Limit(8), n, s);
  }

  lemma SetInRange(s: seq<Byte>)
    requires SetTaker()(s).Got?
    ensures ParamsFit(ToSet(SetTaker()(s).value))
  {
    ValueInRange(FORM);
    var key := TakeText(2, TEXT_LIMIT, s);
    assert NamedTexts()(s).Got? && key.Got? && Values(FORM)(key.rest).Got?;
    Limits();
  }

  lemma CreateInRange(s: seq<Byte>)
    requires CreateTaker()(s).Got?
    ensures ParamsFit(ToCreate(CreateTaker()(s).value))
  {
    Limits();
    BagInRange(FORM, MAX_PROPERTIES);
    var texts, bags := Texts(2, TEXT_LIMIT), Bags(FORM, MAX_PROPERTIES);
    var names := TakeBoth(NamedTexts(), texts, s);
    assert names.Got? && NamedTexts()(s).Got? && texts(NamedTexts()(s).rest).Got?;
    var place := Manys(Ints(8), 3)(names.rest);
    assert Both(Manys(Ints(8), 3), bags)(names.rest).Got? && place.Got? && bags(place.rest).Got?;
    NumbersInRange(names.rest, 3);
  }

  lemma ParamsInRange(s: seq<Byte>)
    requires TakeParams(s).Got?
    ensures ParamsFit(TakeParams(s).value)
  {
    var operation, rest := TakeInt(1, s).value, TakeInt(1, s).rest;
    if operation == OPERATION_SET {
      SetInRange(rest);
    } else if operation == OPERATION_CREATE {
      CreateInRange(rest);
    }
  }

  // ---- Identity and record ----

  type Identity = (nat, (Text, seq<Byte>))
  type RawRecord = (Identity, (nat, (seq<nat>, Params)))

  function IdentityBytes(principal: Text, request: RequestId): seq<Byte> {
    Le(2, FORMAT_VERSION) + (TextBytes(2, principal) + request)
  }

  /** The content of a command, by which a repeated request is recognised. */
  ghost function Fingerprint(c: External): seq<Byte> {
    WriteMany(IntBytes(8), [c.sequence, c.target, c.expectedVersion, c.hint]) + ParamsBytes(c.params)
  }

  ghost function RecordBytes(principal: Text, request: RequestId, tick: nat, c: External): seq<Byte> {
    IdentityBytes(principal, request) + (Le(8, tick) + Fingerprint(c))
  }

  function Fixed(n: nat): Taker<seq<Byte>> {
    (s: seq<Byte>) => TakeBytes(n, s)
  }

  function VersionTaker(): Taker<nat> {
    Mapped(Ints(2), (v: nat) => v == FORMAT_VERSION, (v: nat) => v)
  }

  function IdentityTaker(): Taker<Identity> {
    Both(VersionTaker(), Both(Texts(2, TEXT_LIMIT), Fixed(REQUEST_BYTES)))
  }

  function ContentTaker(): Taker<(seq<nat>, Params)> {
    Both(Manys(Ints(8), 4), ParamsTaker())
  }

  function RecordTaker(): Taker<RawRecord> {
    Both(IdentityTaker(), Both(Ints(8), ContentTaker()))
  }

  /** The command a record stands for, if it is one that can be replayed. */
  function FromRaw(raw: RawRecord): Option<Recovered>
    requires |raw.0.1.1| == REQUEST_BYTES
  {
    var tick, numbers, params := raw.1.0, raw.1.1.0, raw.1.1.1;
    if At(numbers, 1) == 0 || At(numbers, 3) > tick then None
    else Some(Recovered(raw.0.1.0, raw.0.1.1, tick, At(numbers, 0), At(numbers, 2), Replayed(At(numbers, 1), params)))
  }

  lemma RequestLength(s: seq<Byte>)
    requires RecordTaker()(s).Got?
    ensures |RecordTaker()(s).value.0.1.1| == REQUEST_BYTES && |RecordTaker()(s).value.0.1.0| <= TEXT_LIMIT
  {
    assert IdentityTaker()(s).Got?;
    var version := VersionTaker()(s);
    assert version.Got? && Both(Texts(2, TEXT_LIMIT), Fixed(REQUEST_BYTES))(version.rest).Got?;
    var text := Texts(2, TEXT_LIMIT)(version.rest);
    assert text.Got? && Fixed(REQUEST_BYTES)(text.rest).Got?;
  }

  function Decode(payload: seq<Byte>): Option<Recovered> {
    match RecordTaker()(payload)
    case Fail => None
    case Got(raw, left) => RequestLength(payload); if left == [] then FromRaw(raw) else None
  }

  lemma FixedTakesBack(bytes: seq<Byte>)
    ensures TakesBack(Fixed(|bytes|), bytes, bytes)
  {
    forall rest
      ensures TakeBytes(|bytes|, bytes + rest) == Got(bytes, rest)
    {
      assert (bytes + rest)[..|bytes|] == bytes && (bytes + rest)[|bytes|..] == rest;
    }
  }

  lemma VersionTakesBack()
    ensures TakesBack(VersionTaker(), Le(2, FORMAT_VERSION), FORMAT_VERSION)
  {
    Limits();
    IntTakesBack(2, FORMAT_VERSION);
    MappedTakeBack(Ints(2), (v: nat) => v == FORMAT_VERSION, (v: nat) => v, Le(2, FORMAT_VERSION), FORMAT_VERSION);
  }

  lemma IdentityTakesBack(principal: Text, request: RequestId)
    requires FORM.Fits(principal)
    ensures TakesBack(IdentityTaker(), IdentityBytes(principal, request), (FORMAT_VERSION, (principal, request)))
  {
    VersionTakesBack();
    TextTakesBack(2, TEXT_LIMIT, principal);
    FixedTakesBack(request);
    BothTakeBack(Texts(2, TEXT_LIMIT), Fixed(REQUEST_BYTES), TextBytes(2, principal), request, principal, request);
    BothTakeBack(VersionTaker(), Both(Texts(2, TEXT_LIMIT), Fixed(REQUEST_BYTES)), Le(2, FORMAT_VERSION), TextBytes(2, principal) + request,
                 FORMAT_VERSION, (principal, request));
  }

  function Numbers(c: External): seq<nat> {
    [c.sequence, c.target, c.expectedVersion, c.hint]
  }

  lemma ContentTakesBack(c: External)
    requires c.InRange() && ParamsFit(c.params)
    ensures TakesBack(ContentTaker(), Fingerprint(c), (Numbers(c), Kept(c.params)))
  {
    NumbersTakeBack(Numbers(c));
    ParamsTakeBack(c.params);
    BothTakeBack(Manys(Ints(8), 4), ParamsTaker(), WriteMany(IntBytes(8), Numbers(c)), ParamsBytes(c.params), Numbers(c), Kept(c.params));
  }

  function RawRecordOf(principal: Text, request: RequestId, tick: nat, c: External): RawRecord {
    ((FORMAT_VERSION, (principal, request)), (tick, (Numbers(c), Kept(c.params))))
  }

  lemma RecordTakesBack(principal: Text, request: RequestId, tick: nat, c: External)
    requires FORM.Fits(principal) && tick < U64 && c.InRange() && ParamsFit(c.params)
    ensures TakesBack(RecordTaker(), RecordBytes(principal, request, tick, c), RawRecordOf(principal, request, tick, c))
  {
    Limits();
    IdentityTakesBack(principal, request);
    IntTakesBack(8, tick);
    ContentTakesBack(c);
    BothTakeBack(Ints(8), ContentTaker(), Le(8, tick), Fingerprint(c), tick, (Numbers(c), Kept(c.params)));
    BothTakeBack(IdentityTaker(), Both(Ints(8), ContentTaker()), IdentityBytes(principal, request), Le(8, tick) + Fingerprint(c),
                 (FORMAT_VERSION, (principal, request)), (tick, (Numbers(c), Kept(c.params))));
  }

  /** What the record's bytes hold when everything in the command fits. */
  lemma DecodeOfFitting(principal: Text, request: RequestId, tick: nat, c: External)
    requires FORM.Fits(principal) && tick < U64 && c.InRange() && ParamsFit(c.params)
    ensures Decode(RecordBytes(principal, request, tick, c)) ==
            if c.target == 0 || c.hint > tick then None
            else Some(Recovered(principal, request, tick, c.sequence, c.expectedVersion, Replayed(c.target, c.params)))
  {
    RecordTakesBack(principal, request, tick, c);
    AllTaken(RecordTaker(), RecordBytes(principal, request, tick, c), RawRecordOf(principal, request, tick, c));
  }

  lemma RecoveredFits(payload: seq<Byte>)
    requires Decode(payload).Some?
    ensures var r := Decode(payload).value;
            && FORM.Fits(r.principal)
            && exists target: nat, p: Params :: ParamsFit(p) && Kept(p) == p && target > 0 && r.payload == Replayed(target, p)
  {
    Limits();
    RequestLength(payload);
    var first := IdentityTaker()(payload);
    assert first.Got? && Both(Ints(8), ContentTaker())(first.rest).Got?;
    var tick := Ints(8)(first.rest);
    assert tick.Got? && ContentTaker()(tick.rest).Got?;
    var numbers := Manys(Ints(8), 4)(tick.rest);
    assert numbers.Got? && ParamsTaker()(numbers.rest).Got?;
    ParamsInRange(numbers.rest);
    var raw := RecordTaker()(payload).value;
    assert raw.1.1.1 == TakeParams(numbers.rest).value;
    TakenIsKept(numbers.rest);
    assert ParamsFit(raw.1.1.1) && Kept(raw.1.1.1) == raw.1.1.1 && At(raw.1.1.0, 1) > 0
           && Decode(payload).value.payload == Replayed(At(raw.1.1.0, 1), raw.1.1.1);
  }

  lemma TakenIsKept(s: seq<Byte>)
    requires TakeParams(s).Got?
    ensures Kept(TakeParams(s).value) == TakeParams(s).value
  {
  }

  /** What the log can keep of a command so that replay submits what the live run submitted. */
  predicate Replayable(principal: Text, tick: nat, c: External) {
    && FORM.Fits(principal) && ParamsFit(c.params) && c.target != 0 && c.hint <= tick
    && (c.params.CreateParams? ==> c.params.requested == c.target)
  }

  lemma ReplayedFits(target: nat, p: Params, c: External)
    requires ParamsFit(p) && Replayed(target, p) == Submitted(c)
    ensures ParamsFit(c.params)
  {
  }

  lemma SameTarget(c: External)
    requires Replayed(c.target, c.params) == Submitted(c)
    ensures c.params.CreateParams? ==> c.params.requested == c.target
  {
  }

  /** A logged command is replayed as it was submitted, under the same identity and for the same tick, exactly if its
      texts fit and name what they must, its target is an identifier, its hint is not after its tick, and a creation is
      for its target. */
  lemma RecordRoundTripIff(principal: Text, request: RequestId, tick: nat, c: External)
    requires tick < U64 && c.InRange()
    ensures Decode(RecordBytes(principal, request, tick, c)) ==
              Some(Recovered(principal, request, tick, c.sequence, c.expectedVersion, Submitted(c)))
       <==> Replayable(principal, tick, c)
  {
    var bytes, expected := RecordBytes(principal, request, tick, c), Recovered(principal, request, tick, c.sequence, c.expectedVersion, Submitted(c));
    if Replayable(principal, tick, c) {
      DecodeOfFitting(principal, request, tick, c);
    } else if Decode(bytes) == Some(expected) {
      RecoveredFits(bytes);
      var target: nat, p: Params :| ParamsFit(p) && Kept(p) == p && target > 0 && expected.payload == Replayed(target, p);
      ReplayedFits(target, p, c);
      DecodeOfFitting(principal, request, tick, c);
      SameTarget(c);
    }
  }

  /** Equal fingerprints mean equal commands, but for the identifier that a creation asks for, which they leave out. */
  lemma FingerprintsEqualIff(a: External, b: External)
    requires a.InRange() && b.InRange() && ParamsFit(a.params) && ParamsFit(b.params)
    ensures Fingerprint(a) == Fingerprint(b) <==> a.(params := Kept(a.params)) == b.(params := Kept(b.params))
  {
    ContentTakesBack(a);
    ContentTakesBack(b);
    AllTaken(ContentTaker(), Fingerprint(a), (Numbers(a), Kept(a.params)));
    AllTaken(ContentTaker(), Fingerprint(b), (Numbers(b), Kept(b.params)));
    NumbersTell(a, b);
    KeptBytes(a.params);
    KeptBytes(b.params);
  }

  lemma NumbersTell(a: External, b: External)
    ensures Numbers(a) == Numbers(b) <==>
            a.sequence == b.sequence && a.target == b.target && a.expectedVersion == b.expectedVersion && a.hint == b.hint
  {
    if Numbers(a) == Numbers(b) {
      assert Numbers(a)[0] == Numbers(b)[0] && Numbers(a)[1] == Numbers(b)[1];
      assert Numbers(a)[2] == Numbers(b)[2] && Numbers(a)[3] == Numbers(b)[3];
    }
  }

  lemma KeptBytes(p: Params)
    ensures ParamsBytes(Kept(p)) == ParamsBytes(p)
  {
  }
}
