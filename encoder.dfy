/** io.imotions.bson4k.encoder.BsonEncoder: a push encoder that a generated serializer
    drives with beginStructure, encodeElement, the primitive encoders and endStructure,
    and that writes a BsonDocumentWriter. Its only memory is one `State` tag and the
    mapper chosen by the last element; unlike the decoders it keeps no stack. The writer
    is an append-only log of tokens. */
module Encoder {

  import opened Wrappers
  import opened Tokens
  import opened Errors
  import opened Descriptors
  import opened BsonKinds
  import opened BsonConfig
  import opened Platform
  import opened TypeMapping

  /** BsonEncoder.State */
  datatype State = ROOT | BEGIN | POLYMORPHIC | MAP | STRUCTURED_MAP | MAP_KEY | MAP_VALUE

  /** The encoder's fields, with everything written so far. */
  datatype Machine = Machine(state: State, useMapper: Option<BsonKind>, log: seq<Token>)

  /** A new encoder: ROOT state, no mapper, an empty document. */
  function Start(): Machine {
    Machine(ROOT, None, [])
  }

  /** One write on the BsonDocumentWriter. */
  function Emit(m: Machine, t: Token): (r: Machine)
    ensures r.log == m.log + [t] && r.state == m.state && r.useMapper == m.useMapper
  {
    m.(log := m.log + [t])
  }

  /** The name of rootNotDocumentException(): nothing but a document may be the root. */
  const RootRejected: Error := EncodingException(RootNotDocument)

  /** shouldEncodeElementDefault(descriptor, index) */
  function ShouldEncodeElementDefault(conf: BsonConf, d: Descriptor, index: int): bool {
    conf.encodeDefaults
  }

  /** Whether an element keeps its default value in the output depends on the
      configuration alone, and by default it does not. */
  lemma DefaultsFollowConfiguration(conf: BsonConf, d: Descriptor, index: int, d': Descriptor, index': int)
    ensures ShouldEncodeElementDefault(conf, d, index) == ShouldEncodeElementDefault(conf, d', index')
    ensures ShouldEncodeElementDefault(conf, d, index) <==> conf.encodeDefaults
    ensures !ShouldEncodeElementDefault(DefaultConf(), d, index)
  {
  }

  /** beginStructure(descriptor). A class or object opens a document, except as the
      payload of a polymorphic value, whose envelope is already open; a map opens a
      document, or an array when its keys are classes and structured keys are allowed;
      a list opens an array, but never at the root; a polymorphic value opens its
      envelope. Any success leaves ROOT for BEGIN. */
  function BeginStructureStep(m: Machine, conf: BsonConf, d: Descriptor): (r: Result<Machine, Error>)
    ensures r.Success? ==> r.value.state != ROOT && r.value.useMapper == m.useMapper
    ensures r.Success? ==> r.value.log == m.log || (|r.value.log| == |m.log| + 1 && r.value.log[..|m.log|] == m.log)
    ensures d.kind == SerialKind.LIST ==>
      r == if m.state == ROOT then Failure(RootRejected) else Success(Emit(m, StartArray))
    ensures d.kind == SerialKind.MAP && |d.elements| == 0 ==> r == Failure(NoSuchElement)
    ensures d.kind == SerialKind.MAP && |d.elements| > 0 ==>
      r == if d.elements[0].elementType.kind != CLASS then Success(Emit(m, StartDocument).(state := State.MAP))
           else if conf.allowStructuredMapKeys then Success(Emit(m, StartArray).(state := STRUCTURED_MAP))
           else Failure(EncodingException(InvalidKeyKind(d.serialName)))
    ensures IsPolymorphicKind(d.kind) ==> r == Success(Emit(m, StartDocument).(state := POLYMORPHIC))
    ensures (d.kind == CLASS || d.kind == OBJECT) ==>
      r == if m.state == POLYMORPHIC then Success(m.(state := BEGIN))
           else Success(Emit(m, StartDocument).(state := if m.state == ROOT then BEGIN else m.state))
    ensures !IsStructureKind(d.kind) && !IsPolymorphicKind(d.kind) ==>
      r == Failure(EncodingException(UnsupportedStructureKind(d.kind)))
  {
    var m1 :- match d.kind
      case CLASS => if m.state == POLYMORPHIC then Success(m.(state := BEGIN)) else Success(Emit(m, StartDocument))
      case MAP =>
        (match FirstElementKind(d)
         case None => Failure(NoSuchElement)
         case Some(k) =>
           if k == CLASS then
             if conf.allowStructuredMapKeys then Success(Emit(m, StartArray).(state := STRUCTURED_MAP))
             else Failure(EncodingException(InvalidKeyKind(d.serialName)))
           else Success(Emit(m, StartDocument).(state := State.MAP)))
      case OBJECT => if m.state == POLYMORPHIC then Success(m.(state := BEGIN)) else Success(Emit(m, StartDocument))
      case LIST => if m.state == ROOT then Failure(RootRejected) else Success(Emit(m, StartArray))
      case SEALED => Success(Emit(m, StartDocument).(state := POLYMORPHIC))
      case OPEN => Success(Emit(m, StartDocument).(state := POLYMORPHIC))
      case _ => Failure(EncodingException(UnsupportedStructureKind(d.kind)));
    Success(if m1.state == ROOT then m1.(state := BEGIN) else m1)
  }

  /** endStructure(descriptor): a list closes its array; a map its array when it is in
      STRUCTURED_MAP, its document otherwise; a class or object its document unless it
      is still in POLYMORPHIC; a polymorphic value closes its envelope only when no
      payload has done so, and then returns to BEGIN. */
  function EndStructureStep(m: Machine, d: Descriptor): (r: Result<Machine, Error>)
    ensures r.Success? ==> r.value.useMapper == m.useMapper
    ensures d.kind == SerialKind.LIST ==> r == Success(Emit(m, EndArray))
    ensures d.kind == SerialKind.MAP ==>
      r == Success(Emit(m, if m.state == STRUCTURED_MAP then EndArray else EndDocument))
    ensures (d.kind == CLASS || d.kind == OBJECT) ==>
      r == Success(if m.state == POLYMORPHIC then m else Emit(m, EndDocument))
    ensures IsPolymorphicKind(d.kind) ==>
      r == Success(if m.state == POLYMORPHIC then Emit(m, EndDocument).(state := BEGIN) else m)
    ensures !IsStructureKind(d.kind) && !IsPolymorphicKind(d.kind) ==>
      r == Failure(EncodingException(UnsupportedStructureKind(d.kind)))
  {
    match d.kind
    case LIST => Success(Emit(m, EndArray))
    case MAP => Success(Emit(m, if m.state == STRUCTURED_MAP then EndArray else EndDocument))
    case CLASS => Success(if m.state != POLYMORPHIC then Emit(m, EndDocument) else m)
    case OBJECT => Success(if m.state != POLYMORPHIC then Emit(m, EndDocument) else m)
    case SEALED => Success(if m.state == POLYMORPHIC then Emit(m, EndDocument).(state := BEGIN) else m)
    case OPEN => Success(if m.state == POLYMORPHIC then Emit(m, EndDocument).(state := BEGIN) else m)
    case _ => Failure(EncodingException(UnsupportedStructureKind(d.kind)))
  }

  /** The state a non-structured map's element moves to: MAP_KEY to MAP_VALUE, anything
      else to MAP_KEY. */
  function Toggled(s: State): (r: State)
    ensures r == MAP_KEY || r == MAP_VALUE
    ensures r == MAP_VALUE <==> s == MAP_KEY
  {
    if s == MAP_KEY then MAP_VALUE else MAP_KEY
  }

  /** encodeElement(descriptor, index). A class or object writes the element's name; a
      map outside STRUCTURED_MAP toggles between key and value; a polymorphic value
      writes the configured discriminator for its element named "type". Then the element's
      mapping becomes the mapper of the next primitive. The result is always true. */
  function EncodeElementStep(m: Machine, conf: BsonConf, d: Descriptor, index: int): (r: Result<(bool, Machine), Error>)
    ensures r.Success? ==> r.value.0
    ensures r.Success? ==>
      ElementTypeAt(d, index).Some? && r.value.1.useMapper == MappingFor(conf.bsonTypeMappings, ElementTypeAt(d, index).value)
    ensures r.Success? && (d.kind == CLASS || d.kind == OBJECT) ==>
      0 <= index < |d.elements| && r.value.1.log == m.log + [Name(d.elements[index].name)] && r.value.1.state == m.state
    ensures r.Success? && d.kind == SerialKind.MAP ==>
      r.value.1.log == m.log && r.value.1.state == (if m.state == STRUCTURED_MAP then m.state else Toggled(m.state))
    ensures r.Success? && IsPolymorphicKind(d.kind) ==>
      && 0 <= index < |d.elements| && r.value.1.state == m.state
      && r.value.1.log == m.log + (if d.elements[index].name == "type" then [Name(conf.classDiscriminator)] else [])
    ensures r.Success? && !(d.kind == CLASS || d.kind == OBJECT || d.kind == SerialKind.MAP || IsPolymorphicKind(d.kind)) ==>
      r.value.1.log == m.log && r.value.1.state == m.state
  {
    var m1 :-
      if d.kind == CLASS then
        (match ElementNameAt(d, index)
         case None => Failure(IndexOutOfBounds(index))
         case Some(n) => Success(Emit(m, Name(n))))
      else if d.kind == SerialKind.MAP && m.state != STRUCTURED_MAP then
        Success(m.(state := Toggled(m.state)))
      else if d.kind == OBJECT then
        (match ElementNameAt(d, index)
         case None => Failure(IndexOutOfBounds(index))
         case Some(n) => Success(Emit(m, Name(n))))
      else if IsPolymorphicKind(d.kind) then
        (match ElementNameAt(d, index)
         case None => Failure(IndexOutOfBounds(index))
         case Some(n) => Success(if n == "type" then Emit(m, Name(conf.classDiscriminator)) else m))
      else
        Success(m);
    match ElementTypeAt(d, index)
    case None => Failure(IndexOutOfBounds(index))
    case Some(e) => Success((true, m1.(useMapper := MappingFor(conf.bsonTypeMappings, e))))
  }

  /** encodeBsonElement(value, writeOps, asString): refused at the root; in MAP_KEY the
      value's text becomes a field name; anywhere else the value is written. */
  function EncodeBsonElementStep(m: Machine, value: BsonValue, text: string): (r: Result<Machine, Error>)
    ensures r.Failure? <==> m.state == ROOT
    ensures r.Failure? ==> r.error == RootRejected
    ensures r.Success? ==> r.value == Emit(m, if m.state == MAP_KEY then Name(text) else Value(value))
  {
    match m.state
    case ROOT => Failure(RootRejected)
    case MAP_KEY => Success(Emit(m, Name(text)))
    case _ => Success(Emit(m, Value(value)))
  }

  /** A foreign conversion that may throw. */
  function Converted<T>(v: Option<T>): Result<T, Error> {
    match v
    case Some(x) => Success(x)
    case None => Failure(ForeignFailure)
  }

  /** encodeBsonDateTime(value: Long) */
  function EncodeDateTimeStep(m: Machine, p: Platform, millis: Int64): Result<Machine, Error> {
    EncodeBsonElementStep(m, BsonDateTime(millis), p.longText(millis))
  }

  /** encodeUUID(uuid): a standard-representation binary, named by the UUID's text. */
  function EncodeUuidStep(m: Machine, p: Platform, u: Uuid): Result<Machine, Error> {
    EncodeBsonElementStep(m, BsonBinary(p.uuidBinary(u)), p.uuidText(u))
  }

  /** encodeBsonObjectId(value: String): the text is parsed as an ObjectId, which is
      named by its hex form. */
  function EncodeObjectIdTextStep(m: Machine, p: Platform, s: string): Result<Machine, Error> {
    var oid :- Converted(p.parseObjectId(s));
    EncodeBsonElementStep(m, BsonObjectId(oid), p.objectIdHex(oid))
  }

  /** encodeUUID(uuid: String): the text is parsed with UUID.fromString. */
  function EncodeUuidTextStep(m: Machine, p: Platform, s: string): Result<Machine, Error> {
    var u :- Converted(p.parseUuid(s));
    EncodeUuidStep(m, p, u)
  }

  /** encodeBsonDateTime(value: String): the text is parsed with Instant.parse. */
  function EncodeDateTimeTextStep(m: Machine, p: Platform, s: string): Result<Machine, Error> {
    var millis :- Converted(p.parseInstantMillis(s));
    EncodeDateTimeStep(m, p, millis)
  }

  /** encodeString(value): an OBJECT_ID, UUID or DATE mapper converts the text into that
      BSON type first; without a mapper the text is written as a string. */
  function EncodeStringStep(m: Machine, p: Platform, s: string): (r: Result<Machine, Error>)
    ensures m.useMapper == None ==> r == EncodeBsonElementStep(m, BsonString(s), s)
    ensures m.useMapper == Some(BsonKind.OBJECT_ID) && p.parseObjectId(s).Some? ==>
      r == EncodeBsonElementStep(m, BsonObjectId(p.parseObjectId(s).value), p.objectIdHex(p.parseObjectId(s).value))
    ensures m.useMapper == Some(BsonKind.UUID) && p.parseUuid(s).Some? ==>
      r == EncodeBsonElementStep(m, BsonBinary(p.uuidBinary(p.parseUuid(s).value)), p.uuidText(p.parseUuid(s).value))
    ensures m.useMapper == Some(DATE) && p.parseInstantMillis(s).Some? ==>
      r == EncodeBsonElementStep(m, BsonDateTime(p.parseInstantMillis(s).value), p.longText(p.parseInstantMillis(s).value))
    ensures m.useMapper.Some? && r.Failure? && m.state != ROOT ==> r.error == ForeignFailure
  {
    match m.useMapper
    case Some(OBJECT_ID) => EncodeObjectIdTextStep(m, p, s)
    case Some(UUID) => EncodeUuidTextStep(m, p, s)
    case Some(DATE) => EncodeDateTimeTextStep(m, p, s)
    case None => EncodeBsonElementStep(m, BsonString(s), s)
  }

  /** encodeLong(value): a DATE mapper writes a date-time, otherwise an INT64. */
  function EncodeLongStep(m: Machine, p: Platform, l: Int64): (r: Result<Machine, Error>)
    ensures m.useMapper == Some(DATE) ==> r == EncodeBsonElementStep(m, BsonDateTime(l), p.longText(l))
    ensures m.useMapper != Some(DATE) ==> r == EncodeBsonElementStep(m, BsonInt64(l), p.longText(l))
  {
    if m.useMapper == Some(DATE) then EncodeDateTimeStep(m, p, l)
    else EncodeBsonElementStep(m, BsonInt64(l), p.longText(l))
  }

  /** encodeInt(value) */
  function EncodeIntStep(m: Machine, p: Platform, i: Int32): Result<Machine, Error> {
    EncodeBsonElementStep(m, BsonInt32(i), p.intText(i))
  }

  /** encodeByteArray(value): a binary of the generic subtype 0. */
  function EncodeByteArrayStep(m: Machine, p: Platform, bytes: seq<bv8>): Result<Machine, Error> {
    EncodeBsonElementStep(m, BsonBinary(Binary(0, bytes)), p.binaryText(Binary(0, bytes)))
  }

  /** encodeEnum(enumDescriptor, index): the constant's name, as encodeString writes it. */
  function EncodeEnumStep(m: Machine, p: Platform, e: Descriptor, index: int): Result<Machine, Error> {
    match ElementNameAt(e, index)
    case None => Failure(IndexOutOfBounds(index))
    case Some(n) => EncodeStringStep(m, p, n)
  }

  /** encodeNull() goes to the writer directly, past encodeBsonElement, so the encoder
      itself refuses it in no state. The log appends a null token wherever it is called;
      the mongodb writer's own refusal of a value at the root or where a field name is due
      is not part of the log. */
  function EncodeNullStep(m: Machine): Machine {
    Emit(m, Value(BsonNull))
  }

  /** The outcome of a call that returns nothing, as a method sees it: on failure only
      the error, since an exception abandons the encoder. */
  function Settled(r: Result<(), Error>, m: Machine): Result<Machine, Error> {
    match r
    case Success(_) => Success(m)
    case Failure(e) => Failure(e)
  }

  /** The outcome of a call that returns a value, as a method sees it. */
  function Committed<T>(r: Result<T, Error>, m: Machine): Result<(T, Machine), Error> {
    match r
    case Success(v) => Success((v, m))
    case Failure(e) => Failure(e)
  }

  /** The primitive encoders a serializer calls, with their arguments. */
  datatype Scalar =
    | AsBoolean(b: bool)
    | AsByte(i8: Int8)
    | AsChar(c: char)
    | AsDouble(d: Double)
    | AsEnum(e: Descriptor, index: int)
    | AsInt(i: Int32)
    | AsLong(l: Int64)
    | AsNull
    | AsShort(i16: Int16)
    | AsString(s: string)
    | AsByteArray(bytes: seq<bv8>)

  /** The calls a generated serializer makes on the encoder. */
  datatype Call =
    | Begin(d: Descriptor)
    | End(d: Descriptor)
    | ElementAt(d: Descriptor, index: int)
    | Encode(w: Scalar)

  /** One primitive encoder call. encodeByte and encodeShort widen to encodeInt. */
  function EncodeStep(m: Machine, p: Platform, w: Scalar): Result<Machine, Error> {
    match w
    case AsBoolean(b) => EncodeBsonElementStep(m, BsonBoolean(b), p.booleanText(b))
    case AsByte(b) => EncodeIntStep(m, p, b)
    case AsChar(c) => EncodeStringStep(m, p, [c])
    case AsDouble(x) => EncodeBsonElementStep(m, BsonDouble(x), p.doubleText(x))
    case AsEnum(e, index) => EncodeEnumStep(m, p, e, index)
    case AsInt(i) => EncodeIntStep(m, p, i)
    case AsLong(l) => EncodeLongStep(m, p, l)
    case AsNull => Success(EncodeNullStep(m))
    case AsShort(s) => EncodeIntStep(m, p, s)
    case AsString(s) => EncodeStringStep(m, p, s)
    case AsByteArray(bytes) => EncodeByteArrayStep(m, p, bytes)
  }

  /** One call of `c` on the encoder, its result dropped. */
  function Step(m: Machine, conf: BsonConf, p: Platform, c: Call): Result<Machine, Error> {
    match c
    case Begin(d) => BeginStructureStep(m, conf, d)
    case End(d) => EndStructureStep(m, d)
    case ElementAt(d, index) =>
      (match EncodeElementStep(m, conf, d, index)
       case Success(e) => Success(e.1)
       case Failure(err) => Failure(err))
    case Encode(w) => EncodeStep(m, p, w)
  }

  /** A sequence of calls, stopped by the first exception. */
  function Run(m: Machine, conf: BsonConf, p: Platform, calls: seq<Call>): Result<Machine, Error>
    decreases |calls|
  {
    if |calls| == 0 then Success(m)
    else
      var m1 :- Step(m, conf, p, calls[0]);
      Run(m1, conf, p, calls[1..])
  }

  /** Running two sequences of calls one after the other is running their concatenation. */
  lemma {:induction false} RunAppend(m: Machine, conf: BsonConf, p: Platform, first: seq<Call>, second: seq<Call>)
    ensures Run(m, conf, p, first + second) ==
      match Run(m, conf, p, first)
      case Success(m1) => Run(m1, conf, p, second)
      case Failure(e) => Failure(e)
    decreases |first|
  {
    if |first| > 0 {
      assert (first + second)[0] == first[0];
      assert (first + second)[1..] == first[1..] + second;
      match Step(m, conf, p, first[0])
      case Success(m1) => RunAppend(m1, conf, p, first[1..], second);
      case Failure(_) =>
    } else {
      assert first + second == second;
    }
  }

  /** The root accepts nothing but a document: an array, and every primitive except
      null, is refused there with rootNotDocumentException unless the value's own
      conversion (a mapped string, an enum constant) has already failed. encodeNull is
      the one call the encoder does not refuse at the root: it reaches the writer, and
      the log records its token. */
  lemma RootAcceptsOnlyDocuments(m: Machine, conf: BsonConf, p: Platform, d: Descriptor, w: Scalar)
    requires m.state == ROOT
    ensures d.kind == SerialKind.LIST ==> Step(m, conf, p, Begin(d)) == Failure(RootRejected)
    ensures !w.AsNull? ==> Step(m, conf, p, Encode(w)).Failure?
    ensures !w.AsNull? && !w.AsEnum? && (m.useMapper == None || !(w.AsString? || w.AsChar?)) ==>
      Step(m, conf, p, Encode(w)) == Failure(RootRejected)
    ensures w.AsNull? ==> Step(m, conf, p, Encode(w)) == Success(Emit(m, Value(BsonNull)))
  {
  }

  /** A value the encoder writes unchanged through one of its primitive encoders. A
      date-time and an object id are written only through a mapped string or long. */
  predicate Plain(v: BsonValue) {
    || v.BsonNull? || v.BsonBoolean? || v.BsonInt32? || v.BsonInt64? || v.BsonDouble? || v.BsonString?
    || (v.BsonBinary? && v.bin.subtype == 0)
  }

  /** The primitive encoder call that writes a plain value; a value that is not plain
      has none, and stands for a null here. */
  function ScalarOf(v: BsonValue): Scalar {
    match v
    case BsonNull => AsNull
    case BsonBoolean(b) => AsBoolean(b)
    case BsonInt32(i) => AsInt(i)
    case BsonInt64(l) => AsLong(l)
    case BsonDouble(x) => AsDouble(x)
    case BsonString(s) => AsString(s)
    case BsonBinary(b) => if b.subtype == 0 then AsByteArray(b.data) else AsNull
    case _ => AsNull
  }

  /** Outside the root and outside a map key, with no mapper, a plain value's encoder
      writes exactly that value. */
  lemma PlainValueWritten(m: Machine, conf: BsonConf, p: Platform, v: BsonValue)
    requires Plain(v) && m.state != ROOT && m.state != MAP_KEY && m.useMapper == None
    ensures Step(m, conf, p, Encode(ScalarOf(v))) == Success(Emit(m, Value(v)))
  {
  }

  /** In MAP_KEY, with no mapper, a string key becomes a field name. */
  lemma KeyNameWritten(m: Machine, conf: BsonConf, p: Platform, key: string)
    requires m.state == MAP_KEY && m.useMapper == None
    ensures Step(m, conf, p, Encode(AsString(key))) == Success(Emit(m, Name(key)))
  {
  }

  /** Every element of `d` and the value `values[j]` for element `j`: plain and unmapped. */
  predicate PlainFields(conf: BsonConf, d: Descriptor, values: seq<BsonValue>) {
    && |values| <= |d.elements|
    && forall j :: 0 <= j < |values| ==>
      Plain(values[j]) && MappingFor(conf.bsonTypeMappings, d.elements[j].elementType) == None
  }

  /** The calls that write the fields of a class or object. */
  function FieldCalls(d: Descriptor, values: seq<BsonValue>): (calls: seq<Call>)
    decreases |values|
  {
    if |values| == 0 then []
    else FieldCalls(d, values[..|values| - 1]) + [ElementAt(d, |values| - 1), Encode(ScalarOf(values[|values| - 1]))]
  }

  /** What those calls write: each field's name, then its value. */
  function FieldTokens(d: Descriptor, values: seq<BsonValue>): (s: seq<Token>)
    requires |values| <= |d.elements|
    ensures |s| == 2 * |values|
    ensures forall j :: 0 <= j < |values| ==> s[2 * j] == Name(d.elements[j].name) && s[2 * j + 1] == Value(values[j])
    decreases |values|
  {
    if |values| == 0 then []
    else
      var n := |values| - 1;
      FieldTokens(d, values[..n]) + [Name(d.elements[n].name), Value(values[n])]
  }

  /** One field of a class or object: its name, then its plain, unmapped value. */
  lemma FieldWritten(m: Machine, conf: BsonConf, p: Platform, d: Descriptor, n: nat, v: BsonValue)
    requires (d.kind == CLASS || d.kind == OBJECT) && n < |d.elements| && Plain(v)
    requires MappingFor(conf.bsonTypeMappings, d.elements[n].elementType) == None
    requires m.state != ROOT && m.state != MAP_KEY
    ensures Run(m, conf, p, [ElementAt(d, n), Encode(ScalarOf(v))])
      == Success(m.(log := m.log + [Name(d.elements[n].name), Value(v)], useMapper := None))
  {
    var m2 := m.(log := m.log + [Name(d.elements[n].name)], useMapper := None);
    assert Step(m, conf, p, ElementAt(d, n)) == Success(m2);
    PlainValueWritten(m2, conf, p, v);
    assert Run(Emit(m2, Value(v)), conf, p, []) == Success(Emit(m2, Value(v)));
    assert Run(m2, conf, p, [Encode(ScalarOf(v))]) == Success(Emit(m2, Value(v)));
    assert [ElementAt(d, n), Encode(ScalarOf(v))][1..] == [Encode(ScalarOf(v))];
    assert m2.log + [Value(v)] == m.log + [Name(d.elements[n].name), Value(v)];
  }

  /** The fields of a class or object, in any state but the root and a map key, write a
      name and a value each and leave the state alone. */
  lemma {:induction false} FieldsWritten(m: Machine, conf: BsonConf, p: Platform, d: Descriptor, values: seq<BsonValue>)
    requires (d.kind == CLASS || d.kind == OBJECT) && PlainFields(conf, d, values)
    requires m.state != ROOT && m.state != MAP_KEY
    ensures Run(m, conf, p, FieldCalls(d, values)).Success?
    ensures Run(m, conf, p, FieldCalls(d, values)).value.log == m.log + FieldTokens(d, values)
    ensures Run(m, conf, p, FieldCalls(d, values)).value.state == m.state
    decreases |values|
  {
    if |values| > 0 {
      var n := |values| - 1;
      var init := values[..n];
      assert PlainFields(conf, d, init);
      FieldsWritten(m, conf, p, d, init);
      var m1 := Run(m, conf, p, FieldCalls(d, init)).value;
      FieldWritten(m1, conf, p, d, n, values[n]);
      RunThen(m, conf, p, FieldCalls(d, init), [ElementAt(d, n), Encode(ScalarOf(values[n]))], m1,
        m1.(log := m1.log + [Name(d.elements[n].name), Value(values[n])], useMapper := None));
      assert FieldTokens(d, values) == FieldTokens(d, init) + [Name(d.elements[n].name), Value(values[n])];
    }
  }

  /** Two successful runs, one after the other. */
  lemma RunThen(m: Machine, conf: BsonConf, p: Platform, first: seq<Call>, second: seq<Call>, m1: Machine, m2: Machine)
    requires Run(m, conf, p, first) == Success(m1) && Run(m1, conf, p, second) == Success(m2)
    ensures Run(m, conf, p, first + second) == Success(m2)
  {
    RunAppend(m, conf, p, first, second);
  }

  /** Two successful calls, run one after the other. */
  lemma RunPair(m: Machine, conf: BsonConf, p: Platform, c1: Call, c2: Call, m1: Machine, m2: Machine)
    requires Step(m, conf, p, c1) == Success(m1) && Step(m1, conf, p, c2) == Success(m2)
    ensures Run(m, conf, p, [c1, c2]) == Success(m2)
  {
    assert Run(m2, conf, p, []) == Success(m2);
    assert [c1, c2][1..] == [c2];
    assert Run(m1, conf, p, [c2]) == Success(m2);
  }

  /** A map descriptor whose keys are not classes and whose keys and values have no
      mapping. */
  predicate StringKeyedMap(conf: BsonConf, d: Descriptor) {
    && d.kind == SerialKind.MAP && |d.elements| == 2
    && d.elements[0].elementType.kind != CLASS
    && MappingFor(conf.bsonTypeMappings, d.elements[0].elementType) == None
    && MappingFor(conf.bsonTypeMappings, d.elements[1].elementType) == None
  }

  /** Such a map, with string keys and plain values. */
  predicate PlainMap(conf: BsonConf, d: Descriptor, keys: seq<string>, values: seq<BsonValue>) {
    && StringKeyedMap(conf, d)
    && |keys| == |values|
    && forall j :: 0 <= j < |values| ==> Plain(values[j])
  }

  /** The calls that write the entries of a map: for entry `j`, element `2 * j` and its key,
      element `2 * j + 1` and its value. */
  function EntryCalls(d: Descriptor, keys: seq<string>, values: seq<BsonValue>): seq<Call>
    requires |keys| == |values|
    decreases |values|
  {
    if |values| == 0 then []
    else
      var n := |values| - 1;
      EntryCalls(d, keys[..n], values[..n]) + EntryOf(d, n, keys[n], values[n])
  }

  /** The calls that write entry `n` of a map. */
  function EntryOf(d: Descriptor, n: nat, key: string, v: BsonValue): seq<Call>
  {
    [ElementAt(d, 2 * n), Encode(AsString(key)), ElementAt(d, 2 * n + 1), Encode(ScalarOf(v))]
  }

  /** What a map's entries come to in a document: each key as a field name, then its value. */
  function EntryTokens(keys: seq<string>, values: seq<BsonValue>): (s: seq<Token>)
    requires |keys| == |values|
    ensures |s| == 2 * |keys|
    ensures forall j :: 0 <= j < |keys| ==> s[2 * j] == Name(keys[j]) && s[2 * j + 1] == Value(values[j])
    decreases |values|
  {
    if |values| == 0 then []
    else
      var n := |values| - 1;
      EntryTokens(keys[..n], values[..n]) + [Name(keys[n]), Value(values[n])]
  }

  /** One entry of a non-structured map: the key toggles MAP_KEY on and becomes a name,
      the value toggles MAP_VALUE on and is written. */
  lemma EntryWritten(m: Machine, conf: BsonConf, p: Platform, d: Descriptor, n: nat, key: string, v: BsonValue)
    requires StringKeyedMap(conf, d) && Plain(v) && (m.state == State.MAP || m.state == MAP_VALUE)
    ensures Run(m, conf, p, EntryOf(d, n, key, v)) == Success(m.(log := m.log + [Name(key), Value(v)], state := MAP_VALUE, useMapper := None))
  {
    assert (2 * n) % 2 == 0 && (2 * n + 1) % 2 == 1;
    var k1 := m.(state := MAP_KEY, useMapper := None);
    var k2 := Emit(k1, Name(key));
    var v1 := k2.(state := MAP_VALUE);
    var v2 := Emit(v1, Value(v));
    KeyNameWritten(k1, conf, p, key);
    RunPair(m, conf, p, ElementAt(d, 2 * n), Encode(AsString(key)), k1, k2);
    PlainValueWritten(v1, conf, p, v);
    RunPair(k2, conf, p, ElementAt(d, 2 * n + 1), Encode(ScalarOf(v)), v1, v2);
    RunAppend(m, conf, p, [ElementAt(d, 2 * n), Encode(AsString(key))], [ElementAt(d, 2 * n + 1), Encode(ScalarOf(v))]);
    assert [ElementAt(d, 2 * n), Encode(AsString(key))] + [ElementAt(d, 2 * n + 1), Encode(ScalarOf(v))]
      == [ElementAt(d, 2 * n), Encode(AsString(key)), ElementAt(d, 2 * n + 1), Encode(ScalarOf(v))];
    assert v2.log == m.log + [Name(key), Value(v)];
  }

  /** The last entry of a map, written after the others. */
  lemma LastEntryWritten(m: Machine, conf: BsonConf, p: Platform, d: Descriptor, keys: seq<string>, values: seq<BsonValue>, m1: Machine)
    requires PlainMap(conf, d, keys, values) && |values| > 0
    requires Run(m, conf, p, EntryCalls(d, keys[..|values| - 1], values[..|values| - 1])) == Success(m1)
    requires m1.log == m.log + EntryTokens(keys[..|values| - 1], values[..|values| - 1])
    requires m1.state == State.MAP || m1.state == MAP_VALUE
    ensures Run(m, conf, p, EntryCalls(d, keys, values))
         == Success(m1.(log := m.log + EntryTokens(keys, values), state := MAP_VALUE, useMapper := None))
  {
    var n := |values| - 1;
    assert EntryCalls(d, keys, values) == EntryCalls(d, keys[..n], values[..n]) + EntryOf(d, n, keys[n], values[n]);
    assert EntryTokens(keys, values) == EntryTokens(keys[..n], values[..n]) + [Name(keys[n]), Value(values[n])];
    assert m1.log + [Name(keys[n]), Value(values[n])] == m.log + EntryTokens(keys, values);
    EntryWritten(m1, conf, p, d, n, keys[n], values[n]);
    RunThen(m, conf, p, EntryCalls(d, keys[..n], values[..n]), EntryOf(d, n, keys[n], values[n]), m1,
      m1.(log := m1.log + [Name(keys[n]), Value(values[n])], state := MAP_VALUE, useMapper := None));
  }

  /** The entries of a non-structured map write key names and values by turns; the map
      is left in MAP_VALUE once an entry has been written. */
  lemma {:induction false} EntriesWritten(m: Machine, conf: BsonConf, p: Platform, d: Descriptor, keys: seq<string>, values: seq<BsonValue>)
    requires PlainMap(conf, d, keys, values) && (m.state == State.MAP || m.state == MAP_VALUE)
    ensures Run(m, conf, p, EntryCalls(d, keys, values)).Success?
    ensures Run(m, conf, p, EntryCalls(d, keys, values)).value.log == m.log + EntryTokens(keys, values)
    ensures Run(m, conf, p, EntryCalls(d, keys, values)).value.state == if |keys| == 0 then m.state else MAP_VALUE
    decreases |values|
  {
    if |values| > 0 {
      var n := |values| - 1;
      assert PlainMap(conf, d, keys[..n], values[..n]);
      EntriesWritten(m, conf, p, d, keys[..n], values[..n]);
      LastEntryWritten(m, conf, p, d, keys, values, Run(m, conf, p, EntryCalls(d, keys[..n], values[..n])).value);
    }
  }

  /** The calls a map serializer makes. */
  function MapCalls(d: Descriptor, keys: seq<string>, values: seq<BsonValue>): seq<Call>
    requires |keys| == |values|
  {
    [Begin(d)] + EntryCalls(d, keys, values) + [End(d)]
  }

  /** A map with string keys is written as a document in any state, the root included:
      its entries become the document's fields. */
  lemma MapEncodes(m: Machine, conf: BsonConf, p: Platform, d: Descriptor, keys: seq<string>, values: seq<BsonValue>)
    requires PlainMap(conf, d, keys, values)
    ensures Run(m, conf, p, MapCalls(d, keys, values)).Success?
    ensures Run(m, conf, p, MapCalls(d, keys, values)).value.log == m.log + [StartDocument] + EntryTokens(keys, values) + [EndDocument]
    ensures Run(m, conf, p, MapCalls(d, keys, values)).value.state == if |keys| == 0 then State.MAP else MAP_VALUE
  {
    var m1 := Emit(m, StartDocument).(state := State.MAP);
    assert Step(m, conf, p, Begin(d)) == Success(m1);
    assert Run(m, conf, p, [Begin(d)]) == Success(m1) by {
      assert Run(m1, conf, p, []) == Success(m1);
    }
    EntriesWritten(m1, conf, p, d, keys, values);
    var m2 := Run(m1, conf, p, EntryCalls(d, keys, values)).value;
    assert Run(m2, conf, p, [End(d)]) == Success(Emit(m2, EndDocument)) by {
      assert Run(Emit(m2, EndDocument), conf, p, []) == Success(Emit(m2, EndDocument));
    }
    RunAppend(m, conf, p, [Begin(d)], EntryCalls(d, keys, values));
    RunAppend(m, conf, p, [Begin(d)] + EntryCalls(d, keys, values), [End(d)]);
  }

  /** A map whose keys are classes of descriptor `kd`, written as an array because
      structured map keys are allowed; its values have no mapping. */
  predicate StructuredMap(conf: BsonConf, d: Descriptor, kd: Descriptor) {
    && d.kind == SerialKind.MAP && |d.elements| == 2
    && d.elements[0].elementType.kind == CLASS && conf.allowStructuredMapKeys
    && kd.kind == CLASS && kd.serialName == d.elements[0].elementType.serialName
    && MappingFor(conf.bsonTypeMappings, d.elements[1].elementType) == None
  }

  /** Such a map, with keys of plain, unmapped fields and plain values. */
  predicate PlainStructuredMap(conf: BsonConf, d: Descriptor, kd: Descriptor, keys: seq<seq<BsonValue>>, values: seq<BsonValue>) {
    && StructuredMap(conf, d, kd)
    && |keys| == |values|
    && forall j :: 0 <= j < |values| ==> PlainFields(conf, kd, keys[j]) && Plain(values[j])
  }

  /** The calls that write entry `n` of a structured map: element `2 * n` and the key
      class, element `2 * n + 1` and the value. */
  function StructuredEntryOf(d: Descriptor, kd: Descriptor, n: nat, key: seq<BsonValue>, v: BsonValue): seq<Call>
  {
    [ElementAt(d, 2 * n)] + ClassCalls(kd, key) + [ElementAt(d, 2 * n + 1), Encode(ScalarOf(v))]
  }

  /** The calls that write the entries of a structured map. */
  function StructuredEntryCalls(d: Descriptor, kd: Descriptor, keys: seq<seq<BsonValue>>, values: seq<BsonValue>): seq<Call>
    requires |keys| == |values|
    decreases |values|
  {
    if |values| == 0 then []
    else
      var n := |values| - 1;
      StructuredEntryCalls(d, kd, keys[..n], values[..n]) + StructuredEntryOf(d, kd, n, keys[n], values[n])
  }

  /** The document a key class of plain fields is written as. */
  function KeyDocument(kd: Descriptor, key: seq<BsonValue>): seq<Token>
    requires |key| <= |kd.elements|
  {
    [StartDocument] + FieldTokens(kd, key) + [EndDocument]
  }

  /** What a structured map's entries come to inside its array: each key's document,
      then its value. */
  function StructuredTokens(kd: Descriptor, keys: seq<seq<BsonValue>>, values: seq<BsonValue>): seq<Token>
    requires |keys| == |values| && forall j :: 0 <= j < |keys| ==> |keys[j]| <= |kd.elements|
    decreases |values|
  {
    if |values| == 0 then []
    else
      var n := |values| - 1;
      StructuredTokens(kd, keys[..n], values[..n]) + KeyDocument(kd, keys[n]) + [Value(values[n])]
  }

  /** The elements of a structured map's array: `2 * |keys|` of them, key documents and
      values by turns. */
  function StructuredItems(kd: Descriptor, keys: seq<seq<BsonValue>>, values: seq<BsonValue>): (items: seq<seq<Token>>)
    requires |keys| == |values| && forall j :: 0 <= j < |keys| ==> |keys[j]| <= |kd.elements|
    ensures |items| == 2 * |keys|
    ensures forall j :: 0 <= j < |keys| ==> items[2 * j] == KeyDocument(kd, keys[j]) && items[2 * j + 1] == [Value(values[j])]
    decreases |values|
  {
    if |values| == 0 then []
    else
      var n := |values| - 1;
      StructuredItems(kd, keys[..n], values[..n]) + [KeyDocument(kd, keys[n]), [Value(values[n])]]
  }

  /** The tokens of a sequence of elements, one after the other. */
  function Flatten(items: seq<seq<Token>>): seq<Token>
    decreases |items|
  {
    if |items| == 0 then [] else Flatten(items[..|items| - 1]) + items[|items| - 1]
  }

  /** Two more elements at the end of a sequence of elements. */
  lemma FlattenPair(items: seq<seq<Token>>, x: seq<Token>, y: seq<Token>)
    ensures Flatten(items + [x, y]) == Flatten(items) + x + y
  {
    assert (items + [x, y])[..|items| + 1] == items + [x];
    assert (items + [x])[..|items|] == items;
  }

  /** The tokens inside a structured map's array are its `2 * |keys|` elements, key
      documents and values by turns, one after the other. */
  lemma {:induction false} StructuredTokensAlternate(kd: Descriptor, keys: seq<seq<BsonValue>>, values: seq<BsonValue>)
    requires |keys| == |values| && forall j :: 0 <= j < |keys| ==> |keys[j]| <= |kd.elements|
    ensures StructuredTokens(kd, keys, values) == Flatten(StructuredItems(kd, keys, values))
    decreases |values|
  {
    if |values| > 0 {
      var n := |values| - 1;
      StructuredTokensAlternate(kd, keys[..n], values[..n]);
      FlattenPair(StructuredItems(kd, keys[..n], values[..n]), KeyDocument(kd, keys[n]), [Value(values[n])]);
    }
  }

  /** Appending three pieces at once or one after the other. */
  lemma AppendAssociates(a: seq<Token>, b: seq<Token>, c: seq<Token>, e: seq<Token>)
    ensures a + b + c + e == a + (b + c + e)
  {
  }

  /** One entry of a structured map: the key element call leaves the log alone, the key
      class is written as a document, and the value element call clears the mapper
      before the value is written; the state stays STRUCTURED_MAP. */
  lemma StructuredEntryWritten(m: Machine, conf: BsonConf, p: Platform, d: Descriptor, kd: Descriptor, n: nat, key: seq<BsonValue>, v: BsonValue)
    requires StructuredMap(conf, d, kd) && PlainFields(conf, kd, key) && Plain(v) && m.state == STRUCTURED_MAP
    ensures Run(m, conf, p, StructuredEntryOf(d, kd, n, key, v))
         == Success(m.(log := m.log + KeyDocument(kd, key) + [Value(v)], useMapper := None))
  {
    StructuredKeyWritten(m, conf, p, d, kd, n, key);
    var m2 := Run(m, conf, p, [ElementAt(d, 2 * n)] + ClassCalls(kd, key)).value;
    StructuredValueWritten(m2, conf, p, d, kd, n, v);
    RunThen(m, conf, p, [ElementAt(d, 2 * n)] + ClassCalls(kd, key), [ElementAt(d, 2 * n + 1), Encode(ScalarOf(v))], m2,
      m2.(log := m2.log + [Value(v)], useMapper := None));
  }

  /** The element call of a structured map: the log and the state are kept, and the
      mapper becomes that of the key or of the value element. */
  lemma StructuredElementStep(m: Machine, conf: BsonConf, p: Platform, d: Descriptor, kd: Descriptor, index: nat)
    requires StructuredMap(conf, d, kd) && m.state == STRUCTURED_MAP
    ensures Step(m, conf, p, ElementAt(d, index)) == Success(m.(useMapper := MappingFor(conf.bsonTypeMappings, d.elements[index % 2].elementType)))
  {
  }

  /** The key of a structured map entry: its element call leaves the log alone and the
      key class is written as a document. */
  lemma StructuredKeyWritten(m: Machine, conf: BsonConf, p: Platform, d: Descriptor, kd: Descriptor, n: nat, key: seq<BsonValue>)
    requires StructuredMap(conf, d, kd) && PlainFields(conf, kd, key) && m.state == STRUCTURED_MAP
    ensures Run(m, conf, p, [ElementAt(d, 2 * n)] + ClassCalls(kd, key)).Success?
    ensures Run(m, conf, p, [ElementAt(d, 2 * n)] + ClassCalls(kd, key)).value.log == m.log + KeyDocument(kd, key)
    ensures Run(m, conf, p, [ElementAt(d, 2 * n)] + ClassCalls(kd, key)).value.state == STRUCTURED_MAP
  {
    StructuredElementStep(m, conf, p, d, kd, 2 * n);
    var m1 := m.(useMapper := MappingFor(conf.bsonTypeMappings, d.elements[(2 * n) % 2].elementType));
    RunCons(m, conf, p, ElementAt(d, 2 * n), ClassCalls(kd, key), m1);
    ClassEncodes(m1, conf, p, kd, key);
    AppendAssociates(m.log, [StartDocument], FieldTokens(kd, key), [EndDocument]);
  }

  /** The value of a structured map entry: its element call clears the mapper and the
      value is written. */
  lemma StructuredValueWritten(m: Machine, conf: BsonConf, p: Platform, d: Descriptor, kd: Descriptor, n: nat, v: BsonValue)
    requires StructuredMap(conf, d, kd) && Plain(v) && m.state == STRUCTURED_MAP
    ensures Run(m, conf, p, [ElementAt(d, 2 * n + 1), Encode(ScalarOf(v))]) == Success(m.(log := m.log + [Value(v)], useMapper := None))
  {
    StructuredElementStep(m, conf, p, d, kd, 2 * n + 1);
    assert (2 * n + 1) % 2 == 1;
    var m1 := m.(useMapper := None);
    PlainValueWritten(m1, conf, p, v);
    RunPair(m, conf, p, ElementAt(d, 2 * n + 1), Encode(ScalarOf(v)), m1, Emit(m1, Value(v)));
  }

  /** The last entry of a structured map, written after the others. */
  lemma LastStructuredEntryWritten(m: Machine, conf: BsonConf, p: Platform, d: Descriptor, kd: Descriptor,
                                   keys: seq<seq<BsonValue>>, values: seq<BsonValue>, m1: Machine)
    requires PlainStructuredMap(conf, d, kd, keys, values) && |values| > 0
    requires Run(m, conf, p, StructuredEntryCalls(d, kd, keys[..|values| - 1], values[..|values| - 1])) == Success(m1)
    requires m1.log == m.log + StructuredTokens(kd, keys[..|values| - 1], values[..|values| - 1])
    requires m1.state == STRUCTURED_MAP
    ensures Run(m, conf, p, StructuredEntryCalls(d, kd, keys, values))
         == Success(m1.(log := m.log + StructuredTokens(kd, keys, values), useMapper := None))
  {
    var n := |values| - 1;
    assert StructuredEntryCalls(d, kd, keys, values)
      == StructuredEntryCalls(d, kd, keys[..n], values[..n]) + StructuredEntryOf(d, kd, n, keys[n], values[n]);
    var prev := StructuredTokens(kd, keys[..n], values[..n]);
    var doc := KeyDocument(kd, keys[n]);
    var last := [Value(values[n])];
    assert StructuredTokens(kd, keys, values) == prev + doc + last;
    AppendAssociates(m.log, prev, doc, last);
    StructuredEntryWritten(m1, conf, p, d, kd, n, keys[n], values[n]);
    RunThen(m, conf, p, StructuredEntryCalls(d, kd, keys[..n], values[..n]), StructuredEntryOf(d, kd, n, keys[n], values[n]), m1,
      m1.(log := m1.log + doc + last, useMapper := None));
  }

  /** The entries of a structured map write each key's document and then its value, by
      turns, and never leave STRUCTURED_MAP. */
  lemma {:induction false} StructuredEntriesWritten(m: Machine, conf: BsonConf, p: Platform, d: Descriptor, kd: Descriptor,
                                                    keys: seq<seq<BsonValue>>, values: seq<BsonValue>)
    requires PlainStructuredMap(conf, d, kd, keys, values) && m.state == STRUCTURED_MAP
    ensures Run(m, conf, p, StructuredEntryCalls(d, kd, keys, values)).Success?
    ensures Run(m, conf, p, StructuredEntryCalls(d, kd, keys, values)).value.log == m.log + StructuredTokens(kd, keys, values)
    ensures Run(m, conf, p, StructuredEntryCalls(d, kd, keys, values)).value.state == STRUCTURED_MAP
    decreases |values|
  {
    if |values| > 0 {
      var n := |values| - 1;
      assert PlainStructuredMap(conf, d, kd, keys[..n], values[..n]);
      StructuredEntriesWritten(m, conf, p, d, kd, keys[..n], values[..n]);
      LastStructuredEntryWritten(m, conf, p, d, kd, keys, values, Run(m, conf, p, StructuredEntryCalls(d, kd, keys[..n], values[..n])).value);
    }
  }

  /** The calls a map serializer makes for a map with class keys. */
  function StructuredMapCalls(d: Descriptor, kd: Descriptor, keys: seq<seq<BsonValue>>, values: seq<BsonValue>): seq<Call>
    requires |keys| == |values|
  {
    [Begin(d)] + StructuredEntryCalls(d, kd, keys, values) + [End(d)]
  }

  /** A map with class keys, when structured map keys are allowed, is written as one flat
      array of `2 * |keys|` elements, each key's document then its value; the encoder is
      left in STRUCTURED_MAP. */
  lemma StructuredMapEncodes(m: Machine, conf: BsonConf, p: Platform, d: Descriptor, kd: Descriptor,
                             keys: seq<seq<BsonValue>>, values: seq<BsonValue>)
    requires PlainStructuredMap(conf, d, kd, keys, values)
    ensures Run(m, conf, p, StructuredMapCalls(d, kd, keys, values)).Success?
    ensures Run(m, conf, p, StructuredMapCalls(d, kd, keys, values)).value.log
         == m.log + [StartArray] + Flatten(StructuredItems(kd, keys, values)) + [EndArray]
    ensures Run(m, conf, p, StructuredMapCalls(d, kd, keys, values)).value.state == STRUCTURED_MAP
  {
    var m1 := Emit(m, StartArray).(state := STRUCTURED_MAP);
    assert Step(m, conf, p, Begin(d)) == Success(m1);
    assert Run(m, conf, p, [Begin(d)]) == Success(m1) by {
      assert Run(m1, conf, p, []) == Success(m1);
    }
    StructuredEntriesWritten(m1, conf, p, d, kd, keys, values);
    var m2 := Run(m1, conf, p, StructuredEntryCalls(d, kd, keys, values)).value;
    assert Run(m2, conf, p, [End(d)]) == Success(Emit(m2, EndArray)) by {
      assert Run(Emit(m2, EndArray), conf, p, []) == Success(Emit(m2, EndArray));
    }
    RunThen(m, conf, p, [Begin(d)], StructuredEntryCalls(d, kd, keys, values), m1, m2);
    RunThen(m, conf, p, [Begin(d)] + StructuredEntryCalls(d, kd, keys, values), [End(d)], m2, Emit(m2, EndArray));
    StructuredTokensAlternate(kd, keys, values);
  }

  /** A list descriptor whose element has no mapping, with plain items. */
  predicate PlainList(conf: BsonConf, d: Descriptor, values: seq<BsonValue>) {
    && d.kind == SerialKind.LIST && |d.elements| == 1
    && MappingFor(conf.bsonTypeMappings, d.elements[0].elementType) == None
    && forall j :: 0 <= j < |values| ==> Plain(values[j])
  }

  /** The calls that write the items of a list. */
  function ItemCalls(d: Descriptor, values: seq<BsonValue>): seq<Call>
    decreases |values|
  {
    if |values| == 0 then []
    else ItemCalls(d, values[..|values| - 1]) + [ElementAt(d, |values| - 1), Encode(ScalarOf(values[|values| - 1]))]
  }

  /** The value tokens of a list's items. */
  function ValueTokens(values: seq<BsonValue>): (s: seq<Token>)
    ensures |s| == |values| && forall j :: 0 <= j < |values| ==> s[j] == Value(values[j])
    decreases |values|
  {
    if |values| == 0 then [] else ValueTokens(values[..|values| - 1]) + [Value(values[|values| - 1])]
  }

  /** One item of a list: its element call clears the mapper, and the value is written. */
  lemma ItemWritten(m: Machine, conf: BsonConf, p: Platform, d: Descriptor, n: nat, v: BsonValue)
    requires d.kind == SerialKind.LIST && |d.elements| == 1
    requires MappingFor(conf.bsonTypeMappings, d.elements[0].elementType) == None
    requires Plain(v) && m.state != ROOT && m.state != MAP_KEY
    ensures Run(m, conf, p, [ElementAt(d, n), Encode(ScalarOf(v))]) == Success(Emit(m.(useMapper := None), Value(v)))
  {
    var m1 := m.(useMapper := None);
    PlainValueWritten(m1, conf, p, v);
    RunPair(m, conf, p, ElementAt(d, n), Encode(ScalarOf(v)), m1, Emit(m1, Value(v)));
  }

  /** The items of a list, outside the root and a map key, are written as values in
      order and leave the state alone. */
  lemma {:induction false} ItemsWritten(m: Machine, conf: BsonConf, p: Platform, d: Descriptor, values: seq<BsonValue>)
    requires PlainList(conf, d, values) && m.state != ROOT && m.state != MAP_KEY
    ensures Run(m, conf, p, ItemCalls(d, values)).Success?
    ensures Run(m, conf, p, ItemCalls(d, values)).value.log == m.log + ValueTokens(values)
    ensures Run(m, conf, p, ItemCalls(d, values)).value.state == m.state
    decreases |values|
  {
    if |values| > 0 {
      var n := |values| - 1;
      assert PlainList(conf, d, values[..n]);
      ItemsWritten(m, conf, p, d, values[..n]);
      var m1 := Run(m, conf, p, ItemCalls(d, values[..n])).value;
      ItemWritten(m1, conf, p, d, n, values[n]);
      RunThen(m, conf, p, ItemCalls(d, values[..n]), [ElementAt(d, n), Encode(ScalarOf(values[n]))], m1,
        Emit(m1.(useMapper := None), Value(values[n])));
      assert ValueTokens(values) == ValueTokens(values[..n]) + [Value(values[n])];
    }
  }

  /** The calls a list serializer makes. */
  function ListCalls(d: Descriptor, values: seq<BsonValue>): seq<Call>
  {
    [Begin(d)] + ItemCalls(d, values) + [End(d)]
  }

  /** A list inside a document is written as an array of its items; at the root it is
      refused before anything is written. */
  lemma ListEncodes(m: Machine, conf: BsonConf, p: Platform, d: Descriptor, values: seq<BsonValue>)
    requires PlainList(conf, d, values) && m.state != MAP_KEY
    ensures m.state == ROOT ==> Run(m, conf, p, ListCalls(d, values)) == Failure(RootRejected)
    ensures m.state != ROOT ==>
      && Run(m, conf, p, ListCalls(d, values)).Success?
      && Run(m, conf, p, ListCalls(d, values)).value.log == m.log + [StartArray] + ValueTokens(values) + [EndArray]
      && Run(m, conf, p, ListCalls(d, values)).value.state == m.state
  {
    RunAppend(m, conf, p, [Begin(d)], ItemCalls(d, values));
    RunAppend(m, conf, p, [Begin(d)] + ItemCalls(d, values), [End(d)]);
    if m.state == ROOT {
      assert Run(m, conf, p, [Begin(d)]) == Failure(RootRejected);
    } else {
      var m1 := Emit(m, StartArray);
      assert Run(m, conf, p, [Begin(d)]) == Success(m1) by {
        assert Run(m1, conf, p, []) == Success(m1);
      }
      ItemsWritten(m1, conf, p, d, values);
      var m2 := Run(m1, conf, p, ItemCalls(d, values)).value;
      assert Run(m2, conf, p, [End(d)]) == Success(Emit(m2, EndArray)) by {
        assert Run(Emit(m2, EndArray), conf, p, []) == Success(Emit(m2, EndArray));
      }
    }
  }

  /** A successful first call, then the rest. */
  lemma RunCons(m: Machine, conf: BsonConf, p: Platform, c: Call, rest: seq<Call>, m1: Machine)
    requires Step(m, conf, p, c) == Success(m1)
    ensures Run(m, conf, p, [c] + rest) == Run(m1, conf, p, rest)
  {
    assert ([c] + rest)[0] == c && ([c] + rest)[1..] == rest;
  }

  /** The calls a class or object serializer makes. */
  function ClassCalls(d: Descriptor, values: seq<BsonValue>): seq<Call>
  {
    [Begin(d)] + FieldCalls(d, values) + [End(d)]
  }

  /** A class or object, at the root or inside a document, a list or a map value, is
      written as a document of its fields; the root moves on to BEGIN. */
  lemma ClassEncodes(m: Machine, conf: BsonConf, p: Platform, d: Descriptor, values: seq<BsonValue>)
    requires (d.kind == CLASS || d.kind == OBJECT) && PlainFields(conf, d, values)
    requires m.state != MAP_KEY && m.state != POLYMORPHIC
    ensures Run(m, conf, p, ClassCalls(d, values)).Success?
    ensures Run(m, conf, p, ClassCalls(d, values)).value.log == m.log + [StartDocument] + FieldTokens(d, values) + [EndDocument]
    ensures Run(m, conf, p, ClassCalls(d, values)).value.state == if m.state == ROOT then BEGIN else m.state
  {
    var m1 := Emit(m, StartDocument).(state := if m.state == ROOT then BEGIN else m.state);
    assert Step(m, conf, p, Begin(d)) == Success(m1);
    RunCons(m, conf, p, Begin(d), FieldCalls(d, values) + [End(d)], m1);
    assert ClassCalls(d, values) == [Begin(d)] + (FieldCalls(d, values) + [End(d)]);
    FieldsWritten(m1, conf, p, d, values);
    RunAppend(m1, conf, p, FieldCalls(d, values), [End(d)]);
    var m2 := Run(m1, conf, p, FieldCalls(d, values)).value;
    assert Run(m2, conf, p, [End(d)]) == Success(Emit(m2, EndDocument)) by {
      assert Run(Emit(m2, EndDocument), conf, p, []) == Success(Emit(m2, EndDocument));
    }
  }

  /** The shape of a sealed or open polymorphic descriptor: element 0 is the "type"
      string, with no mapping, and element 1 the value. */
  predicate Envelope(conf: BsonConf, s: Descriptor) {
    && IsPolymorphicKind(s.kind) && |s.elements| == 2
    && s.elements[0].name == "type" && s.elements[1].name != "type"
    && MappingFor(conf.bsonTypeMappings, s.elements[0].elementType) == None
  }

  /** The calls a polymorphic serializer makes for a class or object payload `d`. */
  function PolymorphicCalls(s: Descriptor, d: Descriptor, values: seq<BsonValue>): seq<Call>
  {
    [Begin(s), ElementAt(s, 0), Encode(AsString(d.serialName)), ElementAt(s, 1)] + ClassCalls(d, values) + [End(s)]
  }

  /** The head of a polymorphic value: its envelope is opened and the class discriminator
      is written with the payload's serial name; the payload then reuses the envelope. */
  lemma PolymorphicHead(m: Machine, conf: BsonConf, p: Platform, s: Descriptor, name: string)
    requires Envelope(conf, s)
    ensures Run(m, conf, p, [Begin(s), ElementAt(s, 0), Encode(AsString(name)), ElementAt(s, 1)])
      == Success(Machine(POLYMORPHIC, MappingFor(conf.bsonTypeMappings, s.elements[1].elementType),
                         m.log + [StartDocument, Name(conf.classDiscriminator), Value(BsonString(name))]))
  {
    var m1 := Emit(m, StartDocument).(state := POLYMORPHIC);
    var m2 := Emit(m1, Name(conf.classDiscriminator)).(useMapper := None);
    var m3 := Emit(m2, Value(BsonString(name)));
    var m4 := m3.(useMapper := MappingFor(conf.bsonTypeMappings, s.elements[1].elementType));
    assert Step(m, conf, p, Begin(s)) == Success(m1);
    assert Step(m2, conf, p, Encode(AsString(name))) == Success(m3);
    RunPair(m, conf, p, Begin(s), ElementAt(s, 0), m1, m2);
    RunPair(m2, conf, p, Encode(AsString(name)), ElementAt(s, 1), m3, m4);
    RunAppend(m, conf, p, [Begin(s), ElementAt(s, 0)], [Encode(AsString(name)), ElementAt(s, 1)]);
    assert [Begin(s), ElementAt(s, 0)] + [Encode(AsString(name)), ElementAt(s, 1)]
      == [Begin(s), ElementAt(s, 0), Encode(AsString(name)), ElementAt(s, 1)];
    assert m4.log == m.log + [StartDocument, Name(conf.classDiscriminator), Value(BsonString(name))];
  }

  /** A polymorphic value is one document, in any state: the discriminator, the payload's
      serial name, then the payload's fields, closed once, by the payload. The encoder is
      left in BEGIN, whatever state it started in. */
  lemma PolymorphicEncodes(m: Machine, conf: BsonConf, p: Platform, s: Descriptor, d: Descriptor, values: seq<BsonValue>)
    requires Envelope(conf, s) && (d.kind == CLASS || d.kind == OBJECT) && PlainFields(conf, d, values)
    ensures Run(m, conf, p, PolymorphicCalls(s, d, values)).Success?
    ensures Run(m, conf, p, PolymorphicCalls(s, d, values)).value.log
      == m.log + [StartDocument, Name(conf.classDiscriminator), Value(BsonString(d.serialName))] + FieldTokens(d, values) + [EndDocument]
    ensures Run(m, conf, p, PolymorphicCalls(s, d, values)).value.state == BEGIN
  {
    var head := [Begin(s), ElementAt(s, 0), Encode(AsString(d.serialName)), ElementAt(s, 1)];
    PolymorphicHead(m, conf, p, s, d.serialName);
    var m4 := Run(m, conf, p, head).value;
    var m5 := m4.(state := BEGIN);
    assert Step(m4, conf, p, Begin(d)) == Success(m5);
    RunCons(m4, conf, p, Begin(d), FieldCalls(d, values) + [End(d)], m5);
    assert ClassCalls(d, values) == [Begin(d)] + (FieldCalls(d, values) + [End(d)]);
    FieldsWritten(m5, conf, p, d, values);
    RunAppend(m5, conf, p, FieldCalls(d, values), [End(d)]);
    var m6 := Run(m5, conf, p, FieldCalls(d, values)).value;
    var m7 := Emit(m6, EndDocument);
    assert Run(m6, conf, p, [End(d)]) == Success(m7) by {
      assert Run(m7, conf, p, []) == Success(m7);
    }
    assert Run(m7, conf, p, [End(s)]) == Success(m7) by {
      assert Run(m7, conf, p, []) == Success(m7);
    }
    RunAppend(m, conf, p, head, ClassCalls(d, values));
    RunAppend(m, conf, p, head + ClassCalls(d, values), [End(s)]);
  }

  /** The encoder object: its state tag, the chosen mapper and the document written so
      far, which stands for its BsonDocumentWriter. */
  class BsonEncoder {
    const conf: BsonConf
    const platform: Platform
    var written: seq<Token>
    var state: State
    var useMapper: Option<BsonKind>

    function Model(): Machine
      reads this
    {
      Machine(state, useMapper, written)
    }

    constructor(conf: BsonConf, platform: Platform)
      ensures Model() == Start()
      ensures this.conf == conf && this.platform == platform
    {
      this.conf := conf;
      this.platform := platform;
      written := [];
      state := ROOT;
      useMapper := None;
    }

    /** The `document` property: everything written so far. */
    function Document(): (doc: seq<Token>)
      reads this
      ensures doc == Model().log
    {
      written
    }

    method ShouldEncodeElementDefault(descriptor: Descriptor, index: int) returns (r: bool)
      ensures r <==> conf.encodeDefaults
    {
      r := conf.encodeDefaults;
    }

    method BeginStructure(descriptor: Descriptor) returns (r: Result<(), Error>)
      modifies this
      ensures Settled(r, Model()) == old(BeginStructureStep(Model(), conf, descriptor))
    {
      match descriptor.kind {
        case CLASS =>
          if state == POLYMORPHIC {
            state := BEGIN;
          } else {
            written := written + [StartDocument];
          }
        case MAP =>
          if |descriptor.elements| == 0 {
            return Failure(NoSuchElement);
          }
          if descriptor.elements[0].elementType.kind == CLASS {
            if conf.allowStructuredMapKeys {
              written := written + [StartArray];
              state := STRUCTURED_MAP;
            } else {
              return Failure(EncodingException(InvalidKeyKind(descriptor.serialName)));
            }
          } else {
            written := written + [StartDocument];
            state := State.MAP;
          }
        case OBJECT =>
          if state == POLYMORPHIC {
            state := BEGIN;
          } else {
            written := written + [StartDocument];
          }
        case LIST =>
          if state == ROOT {
            return Failure(RootRejected);
          }
          written := written + [StartArray];
        case SEALED =>
          written := written + [StartDocument];
          state := POLYMORPHIC;
        case OPEN =>
          written := written + [StartDocument];
          state := POLYMORPHIC;
        case _ =>
          return Failure(EncodingException(UnsupportedStructureKind(descriptor.kind)));
      }
      if state == ROOT {
        state := BEGIN;
      }
      r := Success(());
    }

    method EndStructure(descriptor: Descriptor) returns (r: Result<(), Error>)
      modifies this
      ensures Settled(r, Model()) == old(EndStructureStep(Model(), descriptor))
    {
      match descriptor.kind {
        case LIST =>
          written := written + [EndArray];
        case MAP =>
          if state == STRUCTURED_MAP {
            written := written + [EndArray];
          } else {
            written := written + [EndDocument];
          }
        case CLASS =>
          if state != POLYMORPHIC {
            written := written + [EndDocument];
          }
        case OBJECT =>
          if state != POLYMORPHIC {
            written := written + [EndDocument];
          }
        case SEALED =>
          if state == POLYMORPHIC {
            written := written + [EndDocument];
            state := BEGIN;
          }
        case OPEN =>
          if state == POLYMORPHIC {
            written := written + [EndDocument];
            state := BEGIN;
          }
        case _ =>
          return Failure(EncodingException(UnsupportedStructureKind(descriptor.kind)));
      }
      r := Success(());
    }

    method EncodeElement(descriptor: Descriptor, index: int) returns (r: Result<bool, Error>)
      modifies this
      ensures Committed(r, Model()) == old(EncodeElementStep(Model(), conf, descriptor, index))
    {
      if descriptor.kind == CLASS {
        if !(0 <= index < |descriptor.elements|) {
          return Failure(IndexOutOfBounds(index));
        }
        written := written + [Name(descriptor.elements[index].name)];
      } else if descriptor.kind == SerialKind.MAP && state != STRUCTURED_MAP {
        state := if state == MAP_KEY then MAP_VALUE else MAP_KEY;
      } else if descriptor.kind == OBJECT {
        if !(0 <= index < |descriptor.elements|) {
          return Failure(IndexOutOfBounds(index));
        }
        written := written + [Name(descriptor.elements[index].name)];
      } else if IsPolymorphicKind(descriptor.kind) {
        if !(0 <= index < |descriptor.elements|) {
          return Failure(IndexOutOfBounds(index));
        }
        if descriptor.elements[index].name == "type" {
          written := written + [Name(conf.classDiscriminator)];
        }
      }
      var e := ElementTypeAt(descriptor, index);
      if e.None? {
        return Failure(IndexOutOfBounds(index));
      }
      useMapper := MappingFor(conf.bsonTypeMappings, e.value);
      r := Success(true);
    }

    /** encodeBsonElement(value, writeOps, asString) */
    method EncodeBsonElement(value: BsonValue, text: string) returns (r: Result<(), Error>)
      modifies this
      ensures Settled(r, Model()) == old(EncodeBsonElementStep(Model(), value, text))
    {
      match state {
        case ROOT =>
          return Failure(RootRejected);
        case MAP_KEY =>
          written := written + [Name(text)];
        case _ =>
          written := written + [Value(value)];
      }
      r := Success(());
    }

    method EncodeString(value: string) returns (r: Result<(), Error>)
      modifies this
      ensures Settled(r, Model()) == old(EncodeStringStep(Model(), platform, value))
    {
      match useMapper {
        case Some(OBJECT_ID) =>
          r := EncodeBsonObjectId(value);
        case Some(UUID) =>
          r := EncodeUuidText(value);
        case Some(DATE) =>
          r := EncodeBsonDateTimeText(value);
        case None =>
          r := EncodeBsonElement(BsonString(value), value);
      }
    }

    method EncodeInt(value: Int32) returns (r: Result<(), Error>)
      modifies this
      ensures Settled(r, Model()) == old(EncodeIntStep(Model(), platform, value))
    {
      r := EncodeBsonElement(BsonInt32(value), platform.intText(value));
    }

    method EncodeBoolean(value: bool) returns (r: Result<(), Error>)
      modifies this
      ensures Settled(r, Model()) == old(EncodeStep(Model(), platform, AsBoolean(value)))
    {
      r := EncodeBsonElement(BsonBoolean(value), platform.booleanText(value));
    }

    method EncodeByte(value: Int8) returns (r: Result<(), Error>)
      modifies this
      ensures Settled(r, Model()) == old(EncodeStep(Model(), platform, AsByte(value)))
    {
      r := EncodeInt(value);
    }

    method EncodeChar(value: char) returns (r: Result<(), Error>)
      modifies this
      ensures Settled(r, Model()) == old(EncodeStep(Model(), platform, AsChar(value)))
    {
      r := EncodeString([value]);
    }

    method EncodeDouble(value: Double) returns (r: Result<(), Error>)
      modifies this
      ensures Settled(r, Model()) == old(EncodeStep(Model(), platform, AsDouble(value)))
    {
      r := EncodeBsonElement(BsonDouble(value), platform.doubleText(value));
    }

    method EncodeEnum(enumDescriptor: Descriptor, index: int) returns (r: Result<(), Error>)
      modifies this
      ensures Settled(r, Model()) == old(EncodeEnumStep(Model(), platform, enumDescriptor, index))
    {
      if !(0 <= index < |enumDescriptor.elements|) {
        return Failure(IndexOutOfBounds(index));
      }
      r := EncodeString(enumDescriptor.elements[index].name);
    }

    method EncodeLong(value: Int64) returns (r: Result<(), Error>)
      modifies this
      ensures Settled(r, Model()) == old(EncodeLongStep(Model(), platform, value))
    {
      if useMapper == Some(DATE) {
        r := EncodeBsonDateTime(value);
      } else {
        r := EncodeBsonElement(BsonInt64(value), platform.longText(value));
      }
    }

    method EncodeNull()
      modifies this
      ensures Model() == EncodeNullStep(old(Model()))
    {
      written := written + [Value(BsonNull)];
    }

    method EncodeShort(value: Int16) returns (r: Result<(), Error>)
      modifies this
      ensures Settled(r, Model()) == old(EncodeStep(Model(), platform, AsShort(value)))
    {
      r := EncodeInt(value);
    }

    method EncodeByteArray(value: seq<bv8>) returns (r: Result<(), Error>)
      modifies this
      ensures Settled(r, Model()) == old(EncodeByteArrayStep(Model(), platform, value))
    {
      var b := Binary(0, value);
      r := EncodeBsonElement(BsonBinary(b), platform.binaryText(b));
    }

    method EncodeBsonDateTime(value: Int64) returns (r: Result<(), Error>)
      modifies this
      ensures Settled(r, Model()) == old(EncodeDateTimeStep(Model(), platform, value))
    {
      r := EncodeBsonElement(BsonDateTime(value), platform.longText(value));
    }

    method EncodeBsonDateTimeText(value: string) returns (r: Result<(), Error>)
      modifies this
      ensures Settled(r, Model()) == old(EncodeDateTimeTextStep(Model(), platform, value))
    {
      var instant := platform.parseInstantMillis(value);
      if instant.None? {
        return Failure(ForeignFailure);
      }
      r := EncodeBsonDateTime(instant.value);
    }

    method EncodeBsonObjectId(value: string) returns (r: Result<(), Error>)
      modifies this
      ensures Settled(r, Model()) == old(EncodeObjectIdTextStep(Model(), platform, value))
    {
      var oid := platform.parseObjectId(value);
      if oid.None? {
        return Failure(ForeignFailure);
      }
      r := EncodeBsonElement(BsonObjectId(oid.value), platform.objectIdHex(oid.value));
    }

    method EncodeUuid(uuid: Uuid) returns (r: Result<(), Error>)
      modifies this
      ensures Settled(r, Model()) == old(EncodeUuidStep(Model(), platform, uuid))
    {
      r := EncodeBsonElement(BsonBinary(platform.uuidBinary(uuid)), platform.uuidText(uuid));
    }

    method EncodeUuidText(uuid: string) returns (r: Result<(), Error>)
      modifies this
      ensures Settled(r, Model()) == old(EncodeUuidTextStep(Model(), platform, uuid))
    {
      var u := platform.parseUuid(uuid);
      if u.None? {
        return Failure(ForeignFailure);
      }
      r := EncodeUuid(u.value);
    }
  }
}
