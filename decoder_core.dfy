/** What the two versions of the decoder have in common: the decoder state tags, the
    saved-frame stack of preserveState/restoreState, decodeBsonElement (the choice
    between a map key's field name and a value token), decodeNotNullMark, and the
    primitive decoders that do not depend on integer width conversion. */
module DecoderCore {

  import opened Wrappers
  import opened Tokens
  import opened Errors
  import opened BsonReader
  import opened Descriptors
  import opened BsonKinds
  import opened Platform
  import opened BsonConfig
  import opened TypeMapping

  /** BsonDecoder.DecoderState */
  datatype DecoderState = DOCUMENT | LIST | MAP_KEY | MAP_VALUE | POLYMORPHIC

  /** One saved `(state, currentIndex)` pair of `stateStack`. */
  datatype Frame = Frame(state: DecoderState, index: int)

  /** The decoder's fields, with the reader it owns: `stack` is `stateStack`, its last
      element the most recently saved frame. */
  datatype Machine = Machine(
    reader: Reader,
    state: DecoderState,
    currentIndex: int,
    useMapper: Option<BsonKind>,
    stack: seq<Frame>
  )

  /** The outcome of one call as a method sees it: on success the returned value with the
      decoder's new fields; on failure only the error, since an exception abandons the
      decoder. */
  function Committed<T>(r: Result<T, Error>, m: Machine): Result<(T, Machine), Error> {
    match r
    case Success(v) => Success((v, m))
    case Failure(e) => Failure(e)
  }

  /** The state preserveState saves: MAP_VALUE is saved as MAP_KEY, so that once a
      composite map value is finished the decoder expects the next key. */
  function Saved(s: DecoderState): (r: DecoderState)
    ensures r != MAP_VALUE
    ensures s != MAP_VALUE ==> r == s
    ensures s == MAP_VALUE ==> r == MAP_KEY
  {
    if s == MAP_VALUE then MAP_KEY else s
  }

  /** preserveState(): push exactly one frame. */
  function Preserve(m: Machine): (r: Machine)
    ensures r.stack == m.stack + [Frame(Saved(m.state), m.currentIndex)]
    ensures r.reader == m.reader && r.state == m.state && r.currentIndex == m.currentIndex && r.useMapper == m.useMapper
  {
    m.(stack := m.stack + [Frame(Saved(m.state), m.currentIndex)])
  }

  /** restoreState(): pop exactly one frame and make it current; `removeLast()` on an
      empty stack throws NoSuchElementException. */
  function Restore(m: Machine): (r: Result<Machine, Error>)
    ensures r.Failure? <==> |m.stack| == 0
    ensures r.Failure? ==> r.error == NoSuchElement
    ensures r.Success? ==>
      && r.value.stack == m.stack[..|m.stack| - 1]
      && r.value.state == m.stack[|m.stack| - 1].state
      && r.value.currentIndex == m.stack[|m.stack| - 1].index
      && r.value.reader == m.reader && r.value.useMapper == m.useMapper
  {
    if |m.stack| == 0 then Failure(NoSuchElement)
    else
      var top := m.stack[|m.stack| - 1];
      Success(m.(state := top.state, currentIndex := top.index, stack := m.stack[..|m.stack| - 1]))
  }

  /** Restoring right after preserving gives back the decoder's stack and cursor, and its
      state with MAP_VALUE turned into MAP_KEY. */
  lemma PreserveRestore(m: Machine)
    ensures Restore(Preserve(m)) == Success(m.(state := Saved(m.state)))
  {
    assert (m.stack + [Frame(Saved(m.state), m.currentIndex)])[..|m.stack|] == m.stack;
  }

  /** Where decodeBsonElement took its primitive from: the field name (a map key), the
      value token, or nowhere (decodeNull's `{ null }` reads nothing). */
  datatype Source = FromName(name: string) | FromValue(v: BsonValue) | NoValue

  /** decodeBsonElement(readOps, parse): `read` is the BSON type `readOps` reads, or
      `None` for decodeNull's read-nothing lambda. `atRoot` is the exception a primitive
      at the top level raises. In MAP_KEY the field name is read and the decoder moves to
      MAP_VALUE; in MAP_VALUE the value is read and it moves back to MAP_KEY; in every other
      state the value is read and the state is kept. */
  function DecodeBsonElementStep(m: Machine, read: Option<BsonType>, atRoot: Error): (r: Result<(Source, Machine), Error>)
    ensures m.reader.state == INITIAL ==> r == Failure(atRoot)
    ensures r.Success? ==> m.reader.state != INITIAL
    ensures r.Success? ==> r.value.1.stack == m.stack && r.value.1.currentIndex == m.currentIndex && r.value.1.useMapper == m.useMapper
    ensures r.Success? && m.state == MAP_KEY ==> r.value.0.FromName? && r.value.1.state == MAP_VALUE
    ensures r.Success? && m.state == MAP_VALUE ==> !r.value.0.FromName? && r.value.1.state == MAP_KEY
    ensures r.Success? && m.state != MAP_KEY && m.state != MAP_VALUE ==> !r.value.0.FromName? && r.value.1.state == m.state
    ensures r.Success? && r.value.0.FromValue? ==> read.Some? && TypeOf(r.value.0.v) == read.value
    ensures r.Success? && read.None? && m.state != MAP_KEY ==> r.value.0 == NoValue && r.value.1.reader == m.reader
  {
    if m.reader.state == INITIAL then Failure(atRoot)
    else if m.state == MAP_KEY then
      var p :- ReadName(m.reader);
      Success((FromName(p.0), m.(state := MAP_VALUE, reader := p.1)))
    else
      var next := if m.state == MAP_VALUE then MAP_KEY else m.state;
      match read
      case None => Success((NoValue, m.(state := next)))
      case Some(t) =>
        var p :- ReadValue(m.reader, t);
        Success((FromValue(p.0), m.(state := next, reader := p.1)))
  }

  /** decodeNotNullMark(): false exactly when the current element is a null, which is then
      consumed; otherwise true with nothing read. */
  function DecodeNotNullMarkStep(m: Machine): (r: Result<(bool, Machine), Error>)
    ensures m.reader.currentBsonType != Some(NULL) ==> r == Success((true, m))
    ensures r.Success? && !r.value.0 ==> m.reader.currentBsonType == Some(NULL)
    ensures r.Success? ==> r.value.1 == m.(reader := r.value.1.reader)
    ensures r.Success? && m.reader.state == VALUE && !r.value.0 ==>
      m.reader.pos < |m.reader.tokens| && m.reader.tokens[m.reader.pos] == Value(BsonNull)
      && r.value.1.reader.pos == m.reader.pos + 1
  {
    if m.reader.currentBsonType == Some(NULL) then
      var p :- ReadValue(m.reader, NULL);
      Success((false, m.(reader := p.1)))
    else
      Success((true, m))
  }

  /** The result of a `parse` callback: `None` is the parser's NumberFormatException. */
  function Parsed<T>(text: string, v: Option<T>): Result<T, Error> {
    match v
    case Some(x) => Success(x)
    case None => Failure(NumberFormat(text))
  }

  /** A result of a foreign conversion: `None` is its exception. */
  function Converted<T>(v: Option<T>): Result<T, Error> {
    match v
    case Some(x) => Success(x)
    case None => Failure(ForeignFailure)
  }

  /** The value a well-typed read returned; every other token is out of reach since the
      reader has already checked the type. */
  function Misread<T>(): Result<T, Error> {
    Failure(InvalidOperation(Malformed))
  }

  /** decodeBoolean(): readBoolean, or String.toBoolean on a map key. */
  function DecodeBooleanStep(m: Machine, p: Platform, atRoot: Error): (r: Result<(bool, Machine), Error>)
    ensures r.Success? ==> r.value.1.stack == m.stack && r.value.1.currentIndex == m.currentIndex
  {
    var e :- DecodeBsonElementStep(m, Some(BsonType.BOOLEAN), atRoot);
    match e.0
    case FromName(s) => Success((p.parseBoolean(s), e.1))
    case FromValue(BsonBoolean(b)) => Success((b, e.1))
    case _ => Misread()
  }

  /** decodeDouble(): readDouble, or String.toDouble on a map key. */
  function DecodeDoubleStep(m: Machine, p: Platform, atRoot: Error): (r: Result<(Double, Machine), Error>)
    ensures r.Success? ==> r.value.1.stack == m.stack && r.value.1.currentIndex == m.currentIndex
  {
    var e :- DecodeBsonElementStep(m, Some(BsonType.DOUBLE), atRoot);
    match e.0
    case FromName(s) =>
      var d :- Parsed(s, p.parseDouble(s));
      Success((d, e.1))
    case FromValue(BsonDouble(d)) => Success((d, e.1))
    case _ => Misread()
  }

  /** decodeNull(): reads nothing except a map key's field name, so that a null map value
      already consumed by decodeNotNullMark still moves the decoder back to MAP_KEY. */
  function DecodeNullStep(m: Machine, atRoot: Error): (r: Result<((), Machine), Error>)
    ensures r.Success? ==> r.value.1.stack == m.stack && r.value.1.currentIndex == m.currentIndex
    ensures r.Success? && m.state == MAP_VALUE ==> r.value.1 == m.(state := MAP_KEY)
  {
    var e :- DecodeBsonElementStep(m, None, atRoot);
    Success(((), e.1))
  }

  /** decodeBsonDateTimeToLong(): readDateTime, or String.toLong on a map key. */
  function DecodeDateTimeStep(m: Machine, p: Platform, atRoot: Error): (r: Result<(Int64, Machine), Error>)
    ensures r.Success? ==> r.value.1.stack == m.stack && r.value.1.currentIndex == m.currentIndex
  {
    var e :- DecodeBsonElementStep(m, Some(DATE_TIME), atRoot);
    match e.0
    case FromName(s) =>
      var l :- Parsed(s, p.parseLong(s));
      Success((l, e.1))
    case FromValue(BsonDateTime(ms)) => Success((ms, e.1))
    case _ => Misread()
  }

  /** decodeBsonDateTimeToString(): the date-time read as milliseconds, rendered as an instant. */
  function DecodeDateTimeTextStep(m: Machine, p: Platform, atRoot: Error): (r: Result<(string, Machine), Error>)
    ensures r.Success? ==> r.value.1.stack == m.stack && r.value.1.currentIndex == m.currentIndex
  {
    var ms :- DecodeDateTimeStep(m, p, atRoot);
    Success((p.instantText(ms.0), ms.1))
  }

  /** readBinaryData, or `BsonBinary(it.toByteArray())` on a map key. */
  function DecodeBinaryStep(m: Machine, p: Platform, atRoot: Error): (r: Result<(Binary, Machine), Error>)
    ensures r.Success? ==> r.value.1.stack == m.stack && r.value.1.currentIndex == m.currentIndex
  {
    var e :- DecodeBsonElementStep(m, Some(BINARY), atRoot);
    match e.0
    case FromName(s) => Success((p.textBinary(s), e.1))
    case FromValue(BsonBinary(b)) => Success((b, e.1))
    case _ => Misread()
  }

  /** decodeByteArray(): the data of a binary element. */
  function DecodeByteArrayStep(m: Machine, p: Platform, atRoot: Error): (r: Result<(seq<bv8>, Machine), Error>)
    ensures r.Success? ==> r.value.1.stack == m.stack && r.value.1.currentIndex == m.currentIndex
  {
    var b :- DecodeBinaryStep(m, p, atRoot);
    Success((b.0.data, b.1))
  }

  /** decodeBsonObjectId(): readObjectId, or `ObjectId(it)` on a map key, as hex text. */
  function DecodeObjectIdStep(m: Machine, p: Platform, atRoot: Error): (r: Result<(string, Machine), Error>)
    ensures r.Success? ==> r.value.1.stack == m.stack && r.value.1.currentIndex == m.currentIndex
  {
    var e :- DecodeBsonElementStep(m, Some(BsonType.OBJECT_ID), atRoot);
    match e.0
    case FromName(s) =>
      var oid :- Converted(p.parseObjectId(s));
      Success((p.objectIdHex(oid), e.1))
    case FromValue(BsonObjectId(oid)) => Success((p.objectIdHex(oid), e.1))
    case _ => Misread()
  }

  /** decodeUUID().toString(): a binary element read as a UUID. */
  function DecodeUuidStep(m: Machine, p: Platform, atRoot: Error): (r: Result<(string, Machine), Error>)
    ensures r.Success? ==> r.value.1.stack == m.stack && r.value.1.currentIndex == m.currentIndex
  {
    var b :- DecodeBinaryStep(m, p, atRoot);
    var u :- Converted(p.binaryUuid(b.0));
    Success((p.uuidText(u), b.1))
  }

  /** decodeString(): the mapping chosen for the current element decides the BSON type
      read: a UUID is a binary element, an object id an object id element, a date a
      date-time element rendered as an instant; anything else is a string element. */
  function DecodeStringStep(m: Machine, p: Platform, atRoot: Error): (r: Result<(string, Machine), Error>)
    ensures r.Success? ==> r.value.1.stack == m.stack && r.value.1.currentIndex == m.currentIndex
    ensures m.useMapper == Some(UUID) ==> r == DecodeUuidStep(m, p, atRoot)
    ensures m.useMapper == Some(BsonKind.OBJECT_ID) ==> r == DecodeObjectIdStep(m, p, atRoot)
    ensures m.useMapper == Some(DATE) ==> r == DecodeDateTimeTextStep(m, p, atRoot)
    ensures m.useMapper.None? && m.state != MAP_KEY && r.Success? ==>
      exists r1 :: ReadValue(m.reader, BsonType.STRING) == Success((BsonString(r.value.0), r1))
  {
    match m.useMapper
    case Some(UUID) => DecodeUuidStep(m, p, atRoot)
    case Some(OBJECT_ID) => DecodeObjectIdStep(m, p, atRoot)
    case Some(DATE) => DecodeDateTimeTextStep(m, p, atRoot)
    case None =>
      var e :- DecodeBsonElementStep(m, Some(BsonType.STRING), atRoot);
      match e.0
      case FromName(s) => Success((s, e.1))
      case FromValue(BsonString(s)) => Success((s, e.1))
      case _ => Misread()
  }

  /** decodeChar(): the first character of decodeString(); `first()` of an empty string
      throws NoSuchElementException. */
  function DecodeCharStep(m: Machine, p: Platform, atRoot: Error): (r: Result<(char, Machine), Error>)
    ensures r.Success? ==> r.value.1.stack == m.stack && r.value.1.currentIndex == m.currentIndex
  {
    var s :- DecodeStringStep(m, p, atRoot);
    if |s.0| == 0 then Failure(NoSuchElement) else Success((s.0[0], s.1))
  }

  /** decodeEnum(enumDescriptor): the index of the entry named by decodeString(), or
      UNKNOWN_NAME when no entry has that name; it fails exactly when decodeString() does. */
  function DecodeEnumStep(m: Machine, p: Platform, enumDescriptor: Descriptor, atRoot: Error): (r: Result<(int, Machine), Error>)
    ensures r.Success? ==> r.value.1.stack == m.stack && r.value.1.currentIndex == m.currentIndex
    ensures r.Success? && r.value.0 != UNKNOWN_NAME ==> 0 <= r.value.0 < |enumDescriptor.elements|
    ensures r.Success? <==> DecodeStringStep(m, p, atRoot).Success?
    ensures r.Failure? ==> r.error == DecodeStringStep(m, p, atRoot).error
    ensures r.Success? ==>
      var s := DecodeStringStep(m, p, atRoot).value;
      && r.value.1 == s.1
      && (r.value.0 == UNKNOWN_NAME <==> forall k :: 0 <= k < |enumDescriptor.elements| ==> enumDescriptor.elements[k].name != s.0)
      && (r.value.0 != UNKNOWN_NAME ==> enumDescriptor.elements[r.value.0].name == s.0)
  {
    var s :- DecodeStringStep(m, p, atRoot);
    Success((ElementIndex(enumDescriptor, s.0), s.1))
  }

  /** Lines 98-108 of decodeElementIndex: after a real index the mapping for that
      element's serial name, with a nullable `?` suffix removed, becomes the mapper of the
      next primitive; a map key never gets one. DECODE_DONE and UNKNOWN_NAME leave it alone. */
  function ChooseMapper(m: Machine, conf: BsonConf, d: Descriptor, idx: int): (r: Result<Machine, Error>)
    ensures r.Success? ==> r.value == m.(useMapper := r.value.useMapper)
    ensures idx < 0 ==> r == Success(m)
    ensures r.Failure? <==> idx >= 0 && m.state != MAP_KEY && ElementTypeAt(d, idx).None?
    ensures r.Failure? ==> r.error == IndexOutOfBounds(idx)
    ensures r.Success? && idx >= 0 && m.state == MAP_KEY ==> r.value.useMapper == None
    ensures r.Success? && idx >= 0 && m.state != MAP_KEY ==>
      var name := LookupName(ElementTypeAt(d, idx).value);
      && (r.value.useMapper.Some? <==> name in conf.bsonTypeMappings)
      && (r.value.useMapper.Some? ==> r.value.useMapper.value == conf.bsonTypeMappings[name])
  {
    if idx < 0 then Success(m)
    else if m.state == MAP_KEY then Success(m.(useMapper := None))
    else
      match ElementTypeAt(d, idx)
      case None => Failure(IndexOutOfBounds(idx))
      case Some(e) => Success(m.(useMapper := MappingFor(conf.bsonTypeMappings, e)))
  }

  /** The DOCUMENT branch of decodeElementIndex: the index of the next field by its name,
      or DECODE_DONE once no field name follows. At a field name the name is consumed and
      the reader stands on the value; at the end of the document nothing is consumed; a
      field name that names nothing is malformed. */
  function DocumentIndex(m: Machine, d: Descriptor): (r: Result<(int, Machine), Error>)
    ensures r.Success? ==> r.value.1 == m.(reader := r.value.1.reader)
    ensures r.Success? ==> r.value.0 == DECODE_DONE || r.value.0 == UNKNOWN_NAME || 0 <= r.value.0 < |d.elements|
    ensures NamedAt(m.reader) ==>
      r == Success((ElementIndex(d, m.reader.tokens[m.reader.pos].name),
                    m.(reader := m.reader.(pos := m.reader.pos + 1, state := VALUE,
                                           currentBsonType := ValueTypeOf(m.reader.tokens[m.reader.pos + 1])))))
    ensures m.reader.state == TYPE && m.reader.pos < |m.reader.tokens| && m.reader.tokens[m.reader.pos] == EndDocument ==>
      r == Success((DECODE_DONE, m.(reader := m.reader.(state := ReaderState.END_OF_DOCUMENT))))
    ensures m.reader.state == TYPE && m.reader.pos < |m.reader.tokens| && m.reader.tokens[m.reader.pos].Name? && !NamedAt(m.reader) ==>
      r == Failure(InvalidOperation(Malformed))
  {
    var r1 :- if m.reader.state == TYPE then AdvanceType(m.reader) else Success(m.reader);
    if r1.state == NAME then
      var n :- ReadName(r1);
      Success((ElementIndex(d, n.0), m.(reader := n.1)))
    else
      Success((DECODE_DONE, m.(reader := r1)))
  }

  /** The MAP_KEY branch: 0 while another entry follows, DECODE_DONE at the end of the document. */
  function MapKeyIndex(m: Machine): (r: Result<(int, Machine), Error>)
    ensures r.Success? ==> r.value.1 == m.(reader := r.value.1.reader)
    ensures r.Success? ==> r.value.0 == 0 || r.value.0 == DECODE_DONE
    ensures r.Success? ==> r.value.1.reader.pos == m.reader.pos
  {
    var t :- ReadBsonType(m.reader);
    Success((if t.0 == BsonType.END_OF_DOCUMENT then DECODE_DONE else 0, m.(reader := t.1)))
  }

  /** The POLYMORPHIC branch: index 0 only when the first field is named after the class
      discriminator (any other name raises `mismatch`), then index 1 for the payload, then
      DECODE_DONE. */
  function PolymorphicIndex(m: Machine, conf: BsonConf, d: Descriptor, mismatch: Error): (r: Result<(int, Machine), Error>)
    ensures r.Success? ==> r.value.1 == m.(reader := r.value.1.reader, currentIndex := r.value.1.currentIndex)
    ensures m.currentIndex == 0 && r.Success? ==> r.value.0 == 0 && r.value.1.currentIndex == 1
    ensures m.currentIndex == 1 ==> r == Success((1, m.(currentIndex := 2)))
    ensures m.currentIndex != 0 && m.currentIndex != 1 ==> r == Success((DECODE_DONE, m))
  {
    if m.currentIndex == 0 then
      var r1 :- if m.reader.state == TYPE then AdvanceType(m.reader) else Success(m.reader);
      var n :- ReadName(r1);
      if n.0 == conf.classDiscriminator then Success((0, m.(reader := n.1, currentIndex := 1)))
      else Failure(mismatch)
    else if m.currentIndex == 1 then Success((1, m.(currentIndex := 2)))
    else Success((DECODE_DONE, m))
  }

  /** endStructure(descriptor): pop the saved frame, then close the container the kind
      names: an array for a list, whichever of an array or a document the reader is at the
      end of for a map, a document for a class or an object, nothing for the rest. */
  function EndStructureStep(m: Machine, d: Descriptor): (r: Result<Machine, Error>)
    ensures |m.stack| == 0 ==> r == Failure(NoSuchElement)
    ensures r.Success? ==>
      && |m.stack| > 0
      && r.value.stack == m.stack[..|m.stack| - 1]
      && r.value.state == m.stack[|m.stack| - 1].state
      && r.value.currentIndex == m.stack[|m.stack| - 1].index
      && r.value.useMapper == m.useMapper
    ensures r.Success? && IsStructureKind(d.kind) ==> m.reader.depth > 0 && r.value.reader.depth == m.reader.depth - 1
    ensures r.Success? && !IsStructureKind(d.kind) ==> r.value.reader == m.reader
  {
    var m0 :- Restore(m);
    match d.kind
    case LIST =>
      var r1 :- ReadEndArray(m0.reader);
      Success(m0.(reader := r1))
    case MAP =>
      var r1 :- if m0.reader.state == END_OF_ARRAY then ReadEndArray(m0.reader) else ReadEndDocument(m0.reader);
      Success(m0.(reader := r1))
    case CLASS =>
      var r1 :- ReadEndDocument(m0.reader);
      Success(m0.(reader := r1))
    case OBJECT =>
      var r1 :- ReadEndDocument(m0.reader);
      Success(m0.(reader := r1))
    case _ => Success(m0)
  }

  /** Ending a map closes an array exactly when the reader stands at the end of one, and
      a document otherwise; the decoder's frame is popped either way. */
  lemma MapEndFollowsReader(m: Machine, d: Descriptor)
    requires d.kind == SerialKind.MAP && |m.stack| > 0
    ensures m.reader.state == END_OF_ARRAY ==>
      (EndStructureStep(m, d).Success? <==> ReadEndArray(m.reader).Success?)
      && (EndStructureStep(m, d).Success? ==> EndStructureStep(m, d).value.reader == ReadEndArray(m.reader).value)
    ensures m.reader.state != END_OF_ARRAY ==>
      (EndStructureStep(m, d).Success? <==> ReadEndDocument(m.reader).Success?)
      && (EndStructureStep(m, d).Success? ==> EndStructureStep(m, d).value.reader == ReadEndDocument(m.reader).value)
  {
  }

  /** The outcome of a call that returns nothing, as a method sees it. */
  function Settled(r: Result<(), Error>, m: Machine): Result<Machine, Error> {
    match r
    case Success(_) => Success(m)
    case Failure(e) => Failure(e)
  }

  /** A call's effect on the decoder, its returned value dropped. */
  function Drop<T>(r: Result<(T, Machine), Error>): Result<Machine, Error> {
    match r
    case Success(p) => Success(p.1)
    case Failure(e) => Failure(e)
  }

  /** decodeInt() without conversion: readInt32, or String.toInt on a map key. */
  function DecodeInt32Step(m: Machine, p: Platform, atRoot: Error): (r: Result<(Int32, Machine), Error>)
    ensures r.Success? ==> r.value.1.stack == m.stack && r.value.1.currentIndex == m.currentIndex
    ensures r.Success? && m.state != MAP_KEY ==>
      exists r1 :: ReadValue(m.reader, INT32) == Success((BsonInt32(r.value.0), r1))
  {
    var e :- DecodeBsonElementStep(m, Some(INT32), atRoot);
    match e.0
    case FromName(s) =>
      var i :- Parsed(s, p.parseInt(s));
      Success((i, e.1))
    case FromValue(BsonInt32(i)) => Success((i, e.1))
    case _ => Misread()
  }

  /** decodeLong() without conversion: readInt64, or String.toLong on a map key. */
  function DecodeInt64Step(m: Machine, p: Platform, atRoot: Error): (r: Result<(Int64, Machine), Error>)
    ensures r.Success? ==> r.value.1.stack == m.stack && r.value.1.currentIndex == m.currentIndex
    ensures r.Success? && m.state != MAP_KEY ==>
      exists r1 :: ReadValue(m.reader, INT64) == Success((BsonInt64(r.value.0), r1))
  {
    var e :- DecodeBsonElementStep(m, Some(INT64), atRoot);
    match e.0
    case FromName(s) =>
      var l :- Parsed(s, p.parseLong(s));
      Success((l, e.1))
    case FromValue(BsonInt64(l)) => Success((l, e.1))
    case _ => Misread()
  }

  /** `descriptor.elementDescriptors.first().kind`, which throws on a descriptor without
      elements. */
  function FirstKind(d: Descriptor): (r: Result<SerialKind, Error>)
    ensures r.Failure? <==> |d.elements| == 0
    ensures r.Success? ==> r.value == d.elements[0].elementType.kind
  {
    match FirstElementKind(d)
    case Some(k) => Success(k)
    case None => Failure(NoSuchElement)
  }

  /** Entering a list (or a structured map, encoded as an array): the cursor is set to
      `start` and the array is opened. */
  function BeginList(m: Machine, start: int): (r: Result<Machine, Error>)
    ensures r.Success? ==> r.value == m.(state := DecoderState.LIST, currentIndex := start, reader := r.value.reader)
    ensures r.Success? ==> r.value.reader.state == TYPE && r.value.reader.depth == m.reader.depth + 1
  {
    var r1 :- ReadStartArray(m.reader);
    Success(m.(state := DecoderState.LIST, currentIndex := start, reader := r1))
  }

  /** Entering a map with primitive keys: a document whose field names are the keys. */
  function BeginMapDocument(m: Machine): (r: Result<Machine, Error>)
    ensures r.Success? ==> r.value == m.(state := MAP_KEY, reader := r.value.reader)
    ensures r.Success? ==> r.value.reader.state == TYPE && r.value.reader.depth == m.reader.depth + 1
  {
    var r1 :- ReadStartDocument(m.reader);
    Success(m.(state := MAP_KEY, reader := r1))
  }

  /** Entering a polymorphic value: a document whose first field is the discriminator. */
  function BeginPolymorphic(m: Machine): (r: Result<Machine, Error>)
    ensures r.Success? ==> r.value == m.(state := POLYMORPHIC, currentIndex := 0, reader := r.value.reader)
    ensures r.Success? ==> r.value.reader.state == TYPE && r.value.reader.depth == m.reader.depth + 1
  {
    var r1 :- ReadStartDocument(m.reader);
    Success(m.(state := POLYMORPHIC, currentIndex := 0, reader := r1))
  }

  /** Entering a class or an object: its own document, except that the payload of a
      polymorphic value shares the document of its envelope. */
  function BeginClass(m: Machine): (r: Result<Machine, Error>)
    ensures m.state == POLYMORPHIC ==> r == Success(m.(state := DecoderState.DOCUMENT))
    ensures r.Success? ==> r.value == m.(state := DecoderState.DOCUMENT, reader := r.value.reader)
    ensures r.Success? && m.state != POLYMORPHIC ==> r.value.reader.depth == m.reader.depth + 1
  {
    var r1 :- if m.state != POLYMORPHIC then ReadStartDocument(m.reader) else Success(m.reader);
    Success(m.(state := DecoderState.DOCUMENT, reader := r1))
  }

  /** Reading a value token the reader is positioned on, outside MAP_KEY. */
  lemma ReadsValueToken(m: Machine, v: BsonValue, atRoot: Error)
    requires m.state != MAP_KEY && m.reader.state == VALUE && m.reader.currentBsonType == Some(TypeOf(v))
    requires m.reader.pos < |m.reader.tokens| && m.reader.tokens[m.reader.pos] == Value(v)
    ensures DecodeBsonElementStep(m, Some(TypeOf(v)), atRoot) ==
      Success((FromValue(v), m.(state := if m.state == MAP_VALUE then MAP_KEY else m.state,
                                reader := m.reader.(pos := m.reader.pos + 1, state := NextState(m.reader.depth)))))
  {
  }

  /** Reading a map key the reader is positioned on. */
  lemma ReadsKeyName(m: Machine, read: Option<BsonType>, key: string, atRoot: Error)
    requires m.state == MAP_KEY && m.reader.state == NAME
    requires m.reader.pos < |m.reader.tokens| && m.reader.tokens[m.reader.pos] == Name(key)
    ensures DecodeBsonElementStep(m, read, atRoot) ==
      Success((FromName(key), m.(state := MAP_VALUE, reader := m.reader.(pos := m.reader.pos + 1, state := VALUE))))
  {
  }

  /** `n` consecutive indices starting at `from`. */
  function Count(from: int, n: nat): (s: seq<int>)
    ensures |s| == n
    ensures forall i :: 0 <= i < n ==> s[i] == from + i
    decreases n
  {
    if n == 0 then [] else [from] + Count(from + 1, n - 1)
  }

  /** From the reader's position on: one value token per element, then `end`. */
  predicate ScalarsThenEnd(r: Reader, values: seq<BsonValue>, end: Token) {
    && r.pos + |values| < |r.tokens|
    && (forall j :: 0 <= j < |values| ==> r.tokens[r.pos + j] == Value(values[j]))
    && r.tokens[r.pos + |values|] == end
  }

  /** From the reader's position on: a field name and a value token per entry, then the
      end of the document. */
  predicate EntriesThenEnd(r: Reader, keys: seq<string>, values: seq<BsonValue>) {
    && |keys| == |values|
    && r.pos + 2 * |keys| < |r.tokens|
    && (forall j :: 0 <= j < |keys| ==> r.tokens[r.pos + 2 * j] == Name(keys[j]))
    && (forall j :: 0 <= j < |keys| ==> r.tokens[r.pos + 2 * j + 1] == Value(values[j]))
    && r.tokens[r.pos + 2 * |keys|] == EndDocument
  }

  /** What one round of a generated serializer's element loop comes to: the decoder
      answered DECODE_DONE, or it handed out an index and the element was read. */
  datatype Round = Finished(after: Machine) | Read(index: int, source: Source, after: Machine)

  /** The element loop of a generated serializer: up to `rounds` rounds of `round`, until
      one of them finishes. The indices handed out, the elements read and the final
      decoder are collected, and the first failure ends the loop. */
  function Loop(round: Machine -> Result<Round, Error>, m: Machine, rounds: nat): Result<(seq<int>, seq<Source>, Machine), Error>
    decreases rounds
  {
    if rounds == 0 then Success(([], [], m))
    else
      match round(m)
      case Failure(err) => Failure(err)
      case Success(Finished(after)) => Success(([DECODE_DONE], [], after))
      case Success(Read(i, source, after)) =>
        match Loop(round, after, rounds - 1)
        case Failure(err) => Failure(err)
        case Success(rest) => Success(([i] + rest.0, [source] + rest.1, rest.2))
  }

  /** The indices of a script of rounds. */
  function Indices(script: seq<(int, Source)>): (s: seq<int>)
    ensures |s| == |script|
    ensures forall j :: 0 <= j < |script| ==> s[j] == script[j].0
    decreases |script|
  {
    if |script| == 0 then [] else [script[0].0] + Indices(script[1..])
  }

  /** The elements of a script of rounds. */
  function Sources(script: seq<(int, Source)>): (s: seq<Source>)
    ensures |s| == |script|
    ensures forall j :: 0 <= j < |script| ==> s[j] == script[j].1
    decreases |script|
  {
    if |script| == 0 then [] else [script[0].1] + Sources(script[1..])
  }

  /** From `ms[j]`, `round` hands out `script[j]` and moves on to `ms[j + 1]`; from the
      last decoder it finishes in `fin`. */
  predicate Scripted(round: Machine -> Result<Round, Error>, ms: seq<Machine>, script: seq<(int, Source)>, fin: Machine)
    requires |ms| == |script| + 1
  {
    && (forall j {:trigger script[j]} :: 0 <= j < |script| ==> round(ms[j]) == Success(Read(script[j].0, script[j].1, ms[j + 1])))
    && round(ms[|script|]) == Success(Finished(fin))
  }

  /** A loop whose every round follows the script collects the script and ends in `fin`. */
  lemma {:induction false} LoopFollowsScript(round: Machine -> Result<Round, Error>, ms: seq<Machine>, script: seq<(int, Source)>, fin: Machine, rounds: nat)
    requires |ms| == |script| + 1 && rounds == |script| + 1
    requires Scripted(round, ms, script, fin)
    ensures Loop(round, ms[0], rounds) == Success((Indices(script) + [DECODE_DONE], Sources(script), fin))
    decreases |script|
  {
    if |script| > 0 {
      assert Scripted(round, ms[1..], script[1..], fin) by {
        forall j | 0 <= j < |script[1..]|
          ensures round(ms[1..][j]) == Success(Read(script[1..][j].0, script[1..][j].1, ms[1..][j + 1]))
        {
          assert round(ms[j + 1]) == Success(Read(script[j + 1].0, script[j + 1].1, ms[j + 2]));
        }
        assert ms[1..][|script[1..]|] == ms[|script|];
      }
      LoopFollowsScript(round, ms[1..], script[1..], fin, rounds - 1);
      assert ms[1..][0] == ms[1];
      assert round(ms[0]) == Success(Read(script[0].0, script[0].1, ms[1]));
      assert [script[0].0] + (Indices(script[1..]) + [DECODE_DONE]) == Indices(script) + [DECODE_DONE];
    } else {
      assert round(ms[0]) == Success(Finished(fin));
      assert Indices(script) + [DECODE_DONE] == [DECODE_DONE];
    }
  }

  /** The decoder after one element `v` of a list has been indexed and read. */
  function AfterListElement(m: Machine, conf: BsonConf, d: Descriptor, v: BsonValue): Machine
    requires |d.elements| > 0
  {
    m.(reader := m.reader.(pos := m.reader.pos + 1, state := NextState(m.reader.depth), currentBsonType := Some(TypeOf(v))),
       currentIndex := m.currentIndex + 1,
       useMapper := MappingFor(conf.bsonTypeMappings, d.elements[0].elementType))
  }

  /** The decoder once decodeElementIndex has moved a list's cursor on at element `v`,
      before the element is read. */
  function ListIndexed(m: Machine, conf: BsonConf, d: Descriptor, v: BsonValue): Machine
    requires |d.elements| > 0
  {
    m.(reader := m.reader.(state := VALUE, currentBsonType := Some(TypeOf(v))),
       currentIndex := m.currentIndex + 1,
       useMapper := MappingFor(conf.bsonTypeMappings, d.elements[0].elementType))
  }

  /** The decoder after the key of a map entry whose value is `v`. */
  function AfterMapKey(m: Machine, v: BsonValue): Machine {
    m.(state := MAP_VALUE, reader := m.reader.(pos := m.reader.pos + 1, state := VALUE, currentBsonType := Some(TypeOf(v))), useMapper := None)
  }

  /** The decoder after one entry `key: v` of a map has been indexed and read. */
  function AfterMapEntry(m: Machine, conf: BsonConf, d: Descriptor, v: BsonValue): Machine
    requires |d.elements| > 1
  {
    m.(reader := m.reader.(pos := m.reader.pos + 2, state := NextState(m.reader.depth), currentBsonType := Some(TypeOf(v))),
       useMapper := MappingFor(conf.bsonTypeMappings, d.elements[1].elementType))
  }

  /** The decoder before element `j` of a list of `values` (or after the last, when `j`
      is their number): `j` tokens and `j` indices further on. */
  function ListMachine(m: Machine, conf: BsonConf, d: Descriptor, values: seq<BsonValue>, j: int): Machine
    requires |d.elements| > 0 && 0 <= j <= |values|
  {
    if j == 0 then m
    else
      m.(reader := m.reader.(pos := m.reader.pos + j, state := NextState(m.reader.depth), currentBsonType := Some(TypeOf(values[j - 1]))),
         currentIndex := m.currentIndex + j,
         useMapper := MappingFor(conf.bsonTypeMappings, d.elements[0].elementType))
  }

  /** Reading element `j` leads from the decoder before it to the decoder before the next. */
  lemma ListMachineNext(m: Machine, conf: BsonConf, d: Descriptor, values: seq<BsonValue>, j: int)
    requires |d.elements| > 0 && 0 <= j < |values|
    ensures ListMachine(m, conf, d, values, j + 1) == AfterListElement(ListMachine(m, conf, d, values, j), conf, d, values[j])
  {
  }

  /** All the decoders a list of `values` passes through. */
  function ListMachines(m: Machine, conf: BsonConf, d: Descriptor, values: seq<BsonValue>): (ms: seq<Machine>)
    requires |d.elements| > 0
    ensures |ms| == |values| + 1
    ensures forall j :: 0 <= j <= |values| ==> ms[j] == ListMachine(m, conf, d, values, j)
  {
    seq(|values| + 1, j requires 0 <= j <= |values| => ListMachine(m, conf, d, values, j))
  }

  /** The decoder stands in a list, on the value token of element `v`. */
  predicate AtListElement(m: Machine, d: Descriptor, v: BsonValue) {
    && m.state == DecoderState.LIST && m.reader.state == TYPE
    && m.reader.pos < |m.reader.tokens| && m.reader.tokens[m.reader.pos] == Value(v)
    && d.kind == SerialKind.LIST && |d.elements| == 1
  }

  /** The decoder stands in a list, at the end of the array. */
  predicate AtListEnd(m: Machine) {
    && m.state == DecoderState.LIST && m.reader.state == TYPE
    && m.reader.pos < |m.reader.tokens| && m.reader.tokens[m.reader.pos] == EndArray
  }

  /** Before each element of a list the decoder stands on that element's value token, with
      the cursor moved on once per element before it. */
  lemma ListAtElement(m: Machine, conf: BsonConf, d: Descriptor, values: seq<BsonValue>, j: int)
    requires m.state == DecoderState.LIST
    requires m.reader.state == TYPE && m.reader.depth > 0
    requires ScalarsThenEnd(m.reader, values, EndArray)
    requires d.kind == SerialKind.LIST && |d.elements| == 1
    requires 0 <= j < |values|
    ensures AtListElement(ListMachine(m, conf, d, values, j), d, values[j])
    ensures ListMachine(m, conf, d, values, j).currentIndex == m.currentIndex + j
  {
  }

  /** After the last element of a list the decoder stands at the end of the array. */
  lemma ListAtEnd(m: Machine, conf: BsonConf, d: Descriptor, values: seq<BsonValue>)
    requires m.state == DecoderState.LIST
    requires m.reader.state == TYPE && m.reader.depth > 0
    requires ScalarsThenEnd(m.reader, values, EndArray)
    requires |d.elements| == 1
    ensures AtListEnd(ListMachine(m, conf, d, values, |values|))
  {
  }

  /** The rounds of a list of `values` whose first index is `from`. */
  function ListScript(from: int, values: seq<BsonValue>): (s: seq<(int, Source)>)
    ensures |s| == |values|
    ensures forall j {:trigger s[j]} :: 0 <= j < |values| ==> s[j] == (from + j, FromValue(values[j]))
  {
    seq(|values|, j requires 0 <= j < |values| => (from + j, FromValue(values[j])))
  }

  /** The decoder before entry `j` of a map whose values are `values` (or after the last):
      two tokens per entry further on. */
  function EntryMachine(m: Machine, conf: BsonConf, d: Descriptor, values: seq<BsonValue>, j: int): Machine
    requires |d.elements| > 1 && 0 <= j <= |values|
  {
    if j == 0 then m
    else
      m.(reader := m.reader.(pos := m.reader.pos + 2 * j, state := NextState(m.reader.depth), currentBsonType := Some(TypeOf(values[j - 1]))),
         useMapper := MappingFor(conf.bsonTypeMappings, d.elements[1].elementType))
  }

  /** Reading entry `j` leads from the decoder before it to the decoder before the next. */
  lemma EntryMachineNext(m: Machine, conf: BsonConf, d: Descriptor, values: seq<BsonValue>, j: int)
    requires |d.elements| > 1 && 0 <= j < |values|
    ensures EntryMachine(m, conf, d, values, j + 1) == AfterMapEntry(EntryMachine(m, conf, d, values, j), conf, d, values[j])
  {
  }

  /** The decoder stands in a map, on the field name `key` of an entry whose value is `v`. */
  predicate AtMapEntry(m: Machine, d: Descriptor, key: string, v: BsonValue) {
    && m.state == MAP_KEY && m.reader.state == TYPE
    && m.reader.pos + 1 < |m.reader.tokens|
    && m.reader.tokens[m.reader.pos] == Name(key) && m.reader.tokens[m.reader.pos + 1] == Value(v)
    && d.kind == SerialKind.MAP && |d.elements| == 2
  }

  /** The decoder stands in a map, at the end of the document. */
  predicate AtMapEnd(m: Machine) {
    && m.state == MAP_KEY && m.reader.state == TYPE
    && m.reader.pos < |m.reader.tokens| && m.reader.tokens[m.reader.pos] == EndDocument
  }

  /** After the last entry of a map the decoder stands at the end of the document. */
  lemma MapAtEnd(m: Machine, conf: BsonConf, d: Descriptor, keys: seq<string>, values: seq<BsonValue>)
    requires m.state == MAP_KEY
    requires m.reader.state == TYPE && m.reader.depth > 0
    requires EntriesThenEnd(m.reader, keys, values)
    requires |d.elements| == 2
    ensures AtMapEnd(EntryMachine(m, conf, d, values, |keys|))
  {
  }

  /** Before each entry of a map the decoder stands on that entry's field name. */
  lemma MapAtEntry(m: Machine, conf: BsonConf, d: Descriptor, keys: seq<string>, values: seq<BsonValue>, j: int)
    requires m.state == MAP_KEY
    requires m.reader.state == TYPE && m.reader.depth > 0
    requires EntriesThenEnd(m.reader, keys, values)
    requires d.kind == SerialKind.MAP && |d.elements| == 2
    requires 0 <= j < |keys|
    ensures AtMapEntry(EntryMachine(m, conf, d, values, j), d, keys[j], values[j])
  {
  }

  /** The decoder before round `i` of a map is the one before entry `i / 2`, or the one
      after that entry's key. */
  lemma MapMachineAt(m: Machine, conf: BsonConf, d: Descriptor, values: seq<BsonValue>, i: int)
    requires |d.elements| > 1 && 0 <= i < 2 * |values|
    ensures i % 2 == 0 ==>
      && MapMachine(m, conf, d, values, i) == EntryMachine(m, conf, d, values, i / 2)
      && MapMachine(m, conf, d, values, i + 1) == AfterMapKey(EntryMachine(m, conf, d, values, i / 2), values[i / 2])
    ensures i % 2 == 1 ==>
      && MapMachine(m, conf, d, values, i) == AfterMapKey(EntryMachine(m, conf, d, values, i / 2), values[i / 2])
      && MapMachine(m, conf, d, values, i + 1) == EntryMachine(m, conf, d, values, i / 2 + 1)
  {
    assert i % 2 == 0 ==> (i + 1) % 2 == 1 && (i + 1) / 2 == i / 2;
    assert i % 2 == 1 ==> (i + 1) % 2 == 0 && (i + 1) / 2 == i / 2 + 1;
  }

  /** The decoder before round `i` of a map: before an entry when `i` is even, between its
      key and its value when `i` is odd. */
  function MapMachine(m: Machine, conf: BsonConf, d: Descriptor, values: seq<BsonValue>, i: int): Machine
    requires |d.elements| > 1 && 0 <= i <= 2 * |values|
  {
    if i % 2 == 0 then EntryMachine(m, conf, d, values, i / 2)
    else AfterMapKey(EntryMachine(m, conf, d, values, i / 2), values[i / 2])
  }

  /** All the decoders a map passes through. */
  function MapMachines(m: Machine, conf: BsonConf, d: Descriptor, values: seq<BsonValue>): (ms: seq<Machine>)
    requires |d.elements| > 1
    ensures |ms| == 2 * |values| + 1
    ensures forall i :: 0 <= i <= 2 * |values| ==> ms[i] == MapMachine(m, conf, d, values, i)
  {
    seq(2 * |values| + 1, i requires 0 <= i <= 2 * |values| => MapMachine(m, conf, d, values, i))
  }

  /** Round `i` of a map with primitive keys: index 0 and the key, then index 1 and the value. */
  function MapRound(keys: seq<string>, values: seq<BsonValue>, i: int): (int, Source)
    requires |keys| == |values| && 0 <= i < 2 * |keys|
  {
    if i % 2 == 0 then (0, FromName(keys[i / 2])) else (1, FromValue(values[i / 2]))
  }

  /** All the rounds of a map with primitive keys. */
  function MapScript(keys: seq<string>, values: seq<BsonValue>): (s: seq<(int, Source)>)
    requires |keys| == |values|
    ensures |s| == 2 * |keys|
    ensures forall i :: 0 <= i < 2 * |keys| ==> s[i] == MapRound(keys, values, i)
  {
    seq(2 * |keys|, i requires 0 <= i < 2 * |keys| => MapRound(keys, values, i))
  }

  /** Round `i` of a map, by the parity of `i`. */
  lemma MapRoundAt(keys: seq<string>, values: seq<BsonValue>, j: int)
    requires |keys| == |values| && 0 <= j < |keys|
    ensures MapRound(keys, values, 2 * j) == (0, FromName(keys[j]))
    ensures MapRound(keys, values, 2 * j + 1) == (1, FromValue(values[j]))
  {
    assert (2 * j) % 2 == 0 && (2 * j) / 2 == j;
    assert (2 * j + 1) % 2 == 1 && (2 * j + 1) / 2 == j;
  }

  /** Round `j` of a list loop reads element `j` with index `from + j`. */
  predicate ListReads(round: Machine -> Result<Round, Error>, m: Machine, conf: BsonConf, d: Descriptor, values: seq<BsonValue>, from: int, j: int)
    requires |d.elements| > 0 && 0 <= j < |values|
  {
    round(ListMachine(m, conf, d, values, j)) == Success(Read(from + j, FromValue(values[j]), ListMachine(m, conf, d, values, j + 1)))
  }

  /** Round `i` of a map loop reads the key (even `i`) or the value (odd `i`) of entry `i / 2`. */
  predicate MapReads(round: Machine -> Result<Round, Error>, m: Machine, conf: BsonConf, d: Descriptor, keys: seq<string>, values: seq<BsonValue>, i: int)
    requires |d.elements| > 1 && |keys| == |values| && 0 <= i < 2 * |keys|
  {
    round(MapMachine(m, conf, d, values, i)) == Success(Read(MapRound(keys, values, i).0, MapRound(keys, values, i).1, MapMachine(m, conf, d, values, i + 1)))
  }

  /** The decoders a list passes through and its rounds form a script of `round`. */
  lemma ListScripted(round: Machine -> Result<Round, Error>, m: Machine, conf: BsonConf, d: Descriptor, values: seq<BsonValue>, from: int, fin: Machine)
    requires |d.elements| > 0
    requires forall j {:trigger ListReads(round, m, conf, d, values, from, j)} :: 0 <= j < |values| ==> ListReads(round, m, conf, d, values, from, j)
    requires round(ListMachine(m, conf, d, values, |values|)) == Success(Finished(fin))
    ensures Scripted(round, ListMachines(m, conf, d, values), ListScript(from, values), fin)
  {
    var ms := ListMachines(m, conf, d, values);
    var script := ListScript(from, values);
    forall j | 0 <= j < |script|
      ensures round(ms[j]) == Success(Read(script[j].0, script[j].1, ms[j + 1]))
    {
      assert ListReads(round, m, conf, d, values, from, j);
      assert ms[j] == ListMachine(m, conf, d, values, j) && ms[j + 1] == ListMachine(m, conf, d, values, j + 1);
    }
    assert ms[|script|] == ListMachine(m, conf, d, values, |values|);
  }

  /** A loop whose every round reads the next element of a list of `values`, handing out
      indices from `from`, collects the list script. */
  lemma ListLoop(round: Machine -> Result<Round, Error>, m: Machine, conf: BsonConf, d: Descriptor, values: seq<BsonValue>, from: int, fin: Machine)
    requires |d.elements| > 0
    requires forall j {:trigger ListReads(round, m, conf, d, values, from, j)} :: 0 <= j < |values| ==> ListReads(round, m, conf, d, values, from, j)
    requires round(ListMachine(m, conf, d, values, |values|)) == Success(Finished(fin))
    ensures Loop(round, m, |values| + 1) == Success((Indices(ListScript(from, values)) + [DECODE_DONE], Sources(ListScript(from, values)), fin))
  {
    ListScripted(round, m, conf, d, values, from, fin);
    assert ListMachines(m, conf, d, values)[0] == m;
    LoopFollowsScript(round, ListMachines(m, conf, d, values), ListScript(from, values), fin, |values| + 1);
  }

  /** The decoders a map passes through and its rounds form a script of `round`. */
  lemma MapScripted(round: Machine -> Result<Round, Error>, m: Machine, conf: BsonConf, d: Descriptor, keys: seq<string>, values: seq<BsonValue>, fin: Machine)
    requires |d.elements| > 1 && |keys| == |values|
    requires forall i {:trigger MapReads(round, m, conf, d, keys, values, i)} :: 0 <= i < 2 * |keys| ==> MapReads(round, m, conf, d, keys, values, i)
    requires round(MapMachine(m, conf, d, values, 2 * |keys|)) == Success(Finished(fin))
    ensures Scripted(round, MapMachines(m, conf, d, values), MapScript(keys, values), fin)
  {
    var ms := MapMachines(m, conf, d, values);
    var script := MapScript(keys, values);
    forall i | 0 <= i < |script|
      ensures round(ms[i]) == Success(Read(script[i].0, script[i].1, ms[i + 1]))
    {
      assert MapReads(round, m, conf, d, keys, values, i);
      assert ms[i] == MapMachine(m, conf, d, values, i) && ms[i + 1] == MapMachine(m, conf, d, values, i + 1);
    }
    assert ms[|script|] == MapMachine(m, conf, d, values, 2 * |keys|);
  }

  /** A loop whose every round reads the next key or value of a map collects the map
      script. */
  lemma MapLoop(round: Machine -> Result<Round, Error>, m: Machine, conf: BsonConf, d: Descriptor, keys: seq<string>, values: seq<BsonValue>, fin: Machine)
    requires |d.elements| > 1 && |keys| == |values|
    requires forall i {:trigger MapReads(round, m, conf, d, keys, values, i)} :: 0 <= i < 2 * |keys| ==> MapReads(round, m, conf, d, keys, values, i)
    requires round(MapMachine(m, conf, d, values, 2 * |keys|)) == Success(Finished(fin))
    ensures Loop(round, m, 2 * |keys| + 1) == Success((Indices(MapScript(keys, values)) + [DECODE_DONE], Sources(MapScript(keys, values)), fin))
  {
    MapScripted(round, m, conf, d, keys, values, fin);
    assert MapMachines(m, conf, d, values)[0] == m;
    LoopFollowsScript(round, MapMachines(m, conf, d, values), MapScript(keys, values), fin, 2 * |keys| + 1);
  }

  /** At every list element from cursor `lo` on, `round` hands out the cursor plus
      `offset` and reads the element from its value token. */
  ghost predicate ReadsListElements(round: Machine -> Result<Round, Error>, conf: BsonConf, d: Descriptor, lo: int, offset: int) {
    forall x, v {:trigger AtListElement(x, d, v)} :: AtListElement(x, d, v) && x.currentIndex >= lo ==>
      round(x) == Success(Read(x.currentIndex + offset, FromValue(v), AfterListElement(x, conf, d, v)))
  }

  /** At the end of an array, `round` answers DECODE_DONE. */
  ghost predicate EndsLists(round: Machine -> Result<Round, Error>) {
    forall x {:trigger AtListEnd(x)} :: AtListEnd(x) ==>
      round(x) == Success(Finished(x.(reader := x.reader.(state := END_OF_ARRAY))))
  }

  /** At every map entry with a primitive key, `round` hands out 0 and reads the key from
      the field name, then hands out 1 and reads the value from its token. */
  ghost predicate ReadsMapEntries(round: Machine -> Result<Round, Error>, conf: BsonConf, d: Descriptor) {
    forall x, k, v {:trigger AtMapEntry(x, d, k, v)} :: AtMapEntry(x, d, k, v) ==>
      && round(x) == Success(Read(0, FromName(k), AfterMapKey(x, v)))
      && round(AfterMapKey(x, v)) == Success(Read(1, FromValue(v), AfterMapEntry(x, conf, d, v)))
  }

  /** At the end of a map's document, `round` answers DECODE_DONE. */
  ghost predicate EndsMaps(round: Machine -> Result<Round, Error>) {
    forall x {:trigger AtMapEnd(x)} :: AtMapEnd(x) ==>
      round(x) == Success(Finished(x.(reader := x.reader.(state := ReaderState.END_OF_DOCUMENT))))
  }

  /** A round that reads list elements and ends lists does so along a whole list. */
  lemma ListRoundsFromSteps(round: Machine -> Result<Round, Error>, m: Machine, conf: BsonConf, d: Descriptor, values: seq<BsonValue>, lo: int, offset: int, from: int)
    requires m.state == DecoderState.LIST && m.currentIndex >= lo
    requires m.reader.state == TYPE && m.reader.depth > 0
    requires ScalarsThenEnd(m.reader, values, EndArray)
    requires d.kind == SerialKind.LIST && |d.elements| == 1
    requires ReadsListElements(round, conf, d, lo, offset) && EndsLists(round)
    requires from == m.currentIndex + offset
    ensures ListRoundsHold(round, m, conf, d, values, from)
  {
    forall j | 0 <= j < |values|
      ensures ListReads(round, m, conf, d, values, from, j)
    {
      ListReadsAt(round, m, conf, d, values, lo, offset, from, j);
    }
    ListAtEnd(m, conf, d, values);
  }

  /** One round of ListRoundsFromSteps. */
  lemma ListReadsAt(round: Machine -> Result<Round, Error>, m: Machine, conf: BsonConf, d: Descriptor, values: seq<BsonValue>, lo: int, offset: int, from: int, j: int)
    requires m.state == DecoderState.LIST && m.currentIndex >= lo
    requires m.reader.state == TYPE && m.reader.depth > 0
    requires ScalarsThenEnd(m.reader, values, EndArray)
    requires d.kind == SerialKind.LIST && |d.elements| == 1
    requires ReadsListElements(round, conf, d, lo, offset)
    requires from == m.currentIndex + offset && 0 <= j < |values|
    ensures ListReads(round, m, conf, d, values, from, j)
  {
    ListAtElement(m, conf, d, values, j);
    ListMachineNext(m, conf, d, values, j);
  }

  /** A round that reads map entries and ends maps does so along a whole map. */
  lemma MapRoundsFromSteps(round: Machine -> Result<Round, Error>, m: Machine, conf: BsonConf, d: Descriptor, keys: seq<string>, values: seq<BsonValue>)
    requires m.state == MAP_KEY
    requires m.reader.state == TYPE && m.reader.depth > 0
    requires EntriesThenEnd(m.reader, keys, values)
    requires d.kind == SerialKind.MAP && |d.elements| == 2
    requires ReadsMapEntries(round, conf, d) && EndsMaps(round)
    ensures MapRoundsHold(round, m, conf, d, keys, values)
  {
    forall i | 0 <= i < 2 * |keys|
      ensures MapReads(round, m, conf, d, keys, values, i)
    {
      MapReadsAt(round, m, conf, d, keys, values, i);
    }
    MapAtEnd(m, conf, d, keys, values);
    assert (2 * |keys|) % 2 == 0 && (2 * |keys|) / 2 == |keys|;
  }

  /** One round of MapRoundsFromSteps. */
  lemma MapReadsAt(round: Machine -> Result<Round, Error>, m: Machine, conf: BsonConf, d: Descriptor, keys: seq<string>, values: seq<BsonValue>, i: int)
    requires m.state == MAP_KEY
    requires m.reader.state == TYPE && m.reader.depth > 0
    requires EntriesThenEnd(m.reader, keys, values)
    requires d.kind == SerialKind.MAP && |d.elements| == 2
    requires ReadsMapEntries(round, conf, d) && 0 <= i < 2 * |keys|
    ensures MapReads(round, m, conf, d, keys, values, i)
  {
    var j := i / 2;
    MapAtEntry(m, conf, d, keys, values, j);
    MapMachineAt(m, conf, d, values, i);
    EntryMachineNext(m, conf, d, values, j);
  }

  /** The decoder once a list of `values` has answered DECODE_DONE. */
  function ListEndMachine(m: Machine, conf: BsonConf, d: Descriptor, values: seq<BsonValue>): Machine
    requires |d.elements| > 0
  {
    var last := ListMachine(m, conf, d, values, |values|);
    last.(reader := last.reader.(state := END_OF_ARRAY))
  }

  /** The decoder once a map has answered DECODE_DONE. */
  function MapEndMachine(m: Machine, conf: BsonConf, d: Descriptor, values: seq<BsonValue>): Machine
    requires |d.elements| > 1
  {
    var last := EntryMachine(m, conf, d, values, |values|);
    last.(reader := last.reader.(state := ReaderState.END_OF_DOCUMENT))
  }

  /** What the loop over a list of `values` yields: the indices `from`, `from` + 1, ... and
      DECODE_DONE, each element read from its value token, and a decoder at the end of the
      array whose cursor has moved on once per element. */
  predicate CountedList(m: Machine, from: int, values: seq<BsonValue>, r: Result<(seq<int>, seq<Source>, Machine), Error>) {
    && r.Success?
    && r.value.0 == Count(from, |values|) + [DECODE_DONE]
    && |r.value.1| == |values|
    && (forall j :: 0 <= j < |values| ==> r.value.1[j] == FromValue(values[j]))
    && r.value.2.currentIndex == m.currentIndex + |values|
    && r.value.2.state == m.state
    && r.value.2.stack == m.stack
    && r.value.2.reader.pos == m.reader.pos + |values|
    && r.value.2.reader.state == END_OF_ARRAY
    && r.value.2.reader.tokens == m.reader.tokens && r.value.2.reader.depth == m.reader.depth
  }

  /** Each round of `round` reads the next element of a list of `values`, handing out
      indices from `from`, and the round after the last answers DECODE_DONE. */
  predicate ListRoundsHold(round: Machine -> Result<Round, Error>, m: Machine, conf: BsonConf, d: Descriptor, values: seq<BsonValue>, from: int)
    requires |d.elements| > 0
  {
    && (forall j {:trigger ListReads(round, m, conf, d, values, from, j)} :: 0 <= j < |values| ==> ListReads(round, m, conf, d, values, from, j))
    && round(ListMachine(m, conf, d, values, |values|)) == Success(Finished(ListEndMachine(m, conf, d, values)))
  }

  /** A loop whose rounds read a list of `values` one by one yields CountedList. */
  lemma ListLoopCounts(round: Machine -> Result<Round, Error>, m: Machine, conf: BsonConf, d: Descriptor, values: seq<BsonValue>, from: int)
    requires |d.elements| > 0
    requires ListRoundsHold(round, m, conf, d, values, from)
    ensures CountedList(m, from, values, Loop(round, m, |values| + 1))
  {
    ListLoop(round, m, conf, d, values, from, ListEndMachine(m, conf, d, values));
    CountedByScript(m, conf, d, values, from, Loop(round, m, |values| + 1));
  }

  /** The list script, collected, is what CountedList describes. */
  lemma CountedByScript(m: Machine, conf: BsonConf, d: Descriptor, values: seq<BsonValue>, from: int, r: Result<(seq<int>, seq<Source>, Machine), Error>)
    requires |d.elements| > 0
    requires r == Success((Indices(ListScript(from, values)) + [DECODE_DONE], Sources(ListScript(from, values)), ListEndMachine(m, conf, d, values)))
    ensures CountedList(m, from, values, r)
  {
    var s := ListScript(from, values);
    forall k | 0 <= k < |values|
      ensures Indices(s)[k] == Count(from, |values|)[k]
    {
      assert s[k] == (from + k, FromValue(values[k]));
    }
    assert Indices(s) == Count(from, |values|);
  }

  /** What the loop over a map yields: 0 and 1 by turns and DECODE_DONE, each key read from
      its field name and each value from its token, and a decoder at the end of the
      document two tokens further on per entry. */
  predicate AlternatedMap(m: Machine, keys: seq<string>, values: seq<BsonValue>, r: Result<(seq<int>, seq<Source>, Machine), Error>)
    requires |keys| == |values|
  {
    && r.Success?
    && |r.value.0| == 2 * |keys| + 1 && r.value.0[2 * |keys|] == DECODE_DONE
    && |r.value.1| == 2 * |keys|
    && (forall j :: 0 <= j < |keys| ==> r.value.0[2 * j] == 0 && r.value.0[2 * j + 1] == 1)
    && (forall j :: 0 <= j < |keys| ==> r.value.1[2 * j] == FromName(keys[j]) && r.value.1[2 * j + 1] == FromValue(values[j]))
    && r.value.2.state == m.state
    && r.value.2.stack == m.stack
    && r.value.2.reader.pos == m.reader.pos + 2 * |keys|
    && r.value.2.reader.state == ReaderState.END_OF_DOCUMENT
    && r.value.2.reader.tokens == m.reader.tokens && r.value.2.reader.depth == m.reader.depth
  }

  /** Each round of `round` reads the next key or value of a map, and the round after the
      last value answers DECODE_DONE. */
  predicate MapRoundsHold(round: Machine -> Result<Round, Error>, m: Machine, conf: BsonConf, d: Descriptor, keys: seq<string>, values: seq<BsonValue>)
    requires |d.elements| > 1 && |keys| == |values|
  {
    && (forall i {:trigger MapReads(round, m, conf, d, keys, values, i)} :: 0 <= i < 2 * |keys| ==> MapReads(round, m, conf, d, keys, values, i))
    && round(MapMachine(m, conf, d, values, 2 * |keys|)) == Success(Finished(MapEndMachine(m, conf, d, values)))
  }

  /** A loop whose rounds read a map's keys and values by turns yields AlternatedMap. */
  lemma MapLoopAlternates(round: Machine -> Result<Round, Error>, m: Machine, conf: BsonConf, d: Descriptor, keys: seq<string>, values: seq<BsonValue>)
    requires |d.elements| > 1 && |keys| == |values|
    requires MapRoundsHold(round, m, conf, d, keys, values)
    ensures AlternatedMap(m, keys, values, Loop(round, m, 2 * |keys| + 1))
  {
    MapLoop(round, m, conf, d, keys, values, MapEndMachine(m, conf, d, values));
    AlternatedByScript(m, conf, d, keys, values, Loop(round, m, 2 * |keys| + 1));
  }

  /** The map script, collected, is what AlternatedMap describes. */
  lemma AlternatedByScript(m: Machine, conf: BsonConf, d: Descriptor, keys: seq<string>, values: seq<BsonValue>, r: Result<(seq<int>, seq<Source>, Machine), Error>)
    requires |d.elements| > 1 && |keys| == |values|
    requires r == Success((Indices(MapScript(keys, values)) + [DECODE_DONE], Sources(MapScript(keys, values)), MapEndMachine(m, conf, d, values)))
    ensures AlternatedMap(m, keys, values, r)
  {
    var s := MapScript(keys, values);
    var n := |keys|;
    assert r.value.0 == Indices(s) + [DECODE_DONE] && r.value.1 == Sources(s);
    forall j | 0 <= j < n
      ensures r.value.0[2 * j] == 0 && r.value.0[2 * j + 1] == 1
    {
      MapRoundAt(keys, values, j);
      assert s[2 * j] == MapRound(keys, values, 2 * j) && s[2 * j + 1] == MapRound(keys, values, 2 * j + 1);
      assert r.value.0[2 * j] == Indices(s)[2 * j] && r.value.0[2 * j + 1] == Indices(s)[2 * j + 1];
    }
    forall j | 0 <= j < n
      ensures r.value.1[2 * j] == FromName(keys[j]) && r.value.1[2 * j + 1] == FromValue(values[j])
    {
      MapRoundAt(keys, values, j);
      assert s[2 * j] == MapRound(keys, values, 2 * j) && s[2 * j + 1] == MapRound(keys, values, 2 * j + 1);
    }
    assert r.value.0[2 * n] == DECODE_DONE;
  }

  /** The decoder stands in a class document, on the field name `name` of a field whose
      value is `v`. */
  predicate AtField(m: Machine, name: string, v: BsonValue) {
    && m.state == DecoderState.DOCUMENT && m.reader.state == TYPE
    && m.reader.pos + 1 < |m.reader.tokens|
    && m.reader.tokens[m.reader.pos] == Name(name) && m.reader.tokens[m.reader.pos + 1] == Value(v)
  }

  /** The decoder stands in a class document, at its end. */
  predicate AtDocumentEnd(m: Machine) {
    && m.state == DecoderState.DOCUMENT && m.reader.state == TYPE
    && m.reader.pos < |m.reader.tokens| && m.reader.tokens[m.reader.pos] == EndDocument
  }

  /** The mapper once the field `name` has been indexed: the mapping of that element when
      the class declares it, the mapper before when it does not. */
  function FieldMapper(m: Machine, conf: BsonConf, d: Descriptor, name: string): Option<BsonKind> {
    var i := ElementIndex(d, name);
    if i == UNKNOWN_NAME then m.useMapper else MappingFor(conf.bsonTypeMappings, ElementTypeAt(d, i).value)
  }

  /** The decoder once the field `name: v` of a class document has been indexed, before its value is read. */
  function FieldNamed(m: Machine, conf: BsonConf, d: Descriptor, name: string, v: BsonValue): Machine {
    m.(reader := m.reader.(pos := m.reader.pos + 1, state := VALUE, currentBsonType := Some(TypeOf(v))),
       useMapper := FieldMapper(m, conf, d, name))
  }

  /** The decoder after the field `name: v` of a class document has been indexed and read. */
  function AfterField(m: Machine, conf: BsonConf, d: Descriptor, name: string, v: BsonValue): Machine {
    m.(reader := m.reader.(pos := m.reader.pos + 2, state := NextState(m.reader.depth), currentBsonType := Some(TypeOf(v))),
       useMapper := FieldMapper(m, conf, d, name))
  }

  /** The decoder before field `j` of a class document whose fields are `names` and
      `values` (or after the last, when `j` is their number). */
  function FieldMachine(m: Machine, conf: BsonConf, d: Descriptor, names: seq<string>, values: seq<BsonValue>, j: nat): Machine
    requires j <= |names| && j <= |values|
    decreases j
  {
    if j == 0 then m
    else AfterField(FieldMachine(m, conf, d, names, values, j - 1), conf, d, names[j - 1], values[j - 1])
  }

  /** Before field `j` the decoder is two tokens further on per field, in the same state
      and frame. */
  lemma {:induction false} FieldMachineShape(m: Machine, conf: BsonConf, d: Descriptor, names: seq<string>, values: seq<BsonValue>, j: nat)
    requires j <= |names| && j <= |values|
    ensures var x := FieldMachine(m, conf, d, names, values, j);
      && x.state == m.state && x.stack == m.stack && x.currentIndex == m.currentIndex
      && x.reader.tokens == m.reader.tokens && x.reader.depth == m.reader.depth
      && x.reader.pos == m.reader.pos + 2 * j
      && x.reader.state == (if j == 0 then m.reader.state else NextState(m.reader.depth))
    decreases j
  {
    if j > 0 {
      FieldMachineShape(m, conf, d, names, values, j - 1);
    }
  }

  /** Before each field of a class document the decoder stands on that field's name. */
  lemma FieldAt(m: Machine, conf: BsonConf, d: Descriptor, names: seq<string>, values: seq<BsonValue>, j: nat)
    requires m.state == DecoderState.DOCUMENT
    requires m.reader.state == TYPE && m.reader.depth > 0
    requires EntriesThenEnd(m.reader, names, values)
    requires j < |names|
    ensures AtField(FieldMachine(m, conf, d, names, values, j), names[j], values[j])
  {
    FieldMachineShape(m, conf, d, names, values, j);
  }

  /** After the last field the decoder stands at the end of the document. */
  lemma FieldsAtEnd(m: Machine, conf: BsonConf, d: Descriptor, names: seq<string>, values: seq<BsonValue>)
    requires m.state == DecoderState.DOCUMENT
    requires m.reader.state == TYPE && m.reader.depth > 0
    requires EntriesThenEnd(m.reader, names, values)
    ensures AtDocumentEnd(FieldMachine(m, conf, d, names, values, |names|))
  {
    FieldMachineShape(m, conf, d, names, values, |names|);
  }

  /** All the decoders a class document passes through. */
  function FieldMachines(m: Machine, conf: BsonConf, d: Descriptor, names: seq<string>, values: seq<BsonValue>): (ms: seq<Machine>)
    requires |names| == |values|
    ensures |ms| == |names| + 1
    ensures forall j :: 0 <= j <= |names| ==> ms[j] == FieldMachine(m, conf, d, names, values, j)
  {
    seq(|names| + 1, j requires 0 <= j <= |names| => FieldMachine(m, conf, d, names, values, j))
  }

  /** The rounds of a class document: each field's index by its name, and its value. */
  function FieldScript(d: Descriptor, names: seq<string>, values: seq<BsonValue>): (s: seq<(int, Source)>)
    requires |names| == |values|
    ensures |s| == |names|
    ensures forall j {:trigger s[j]} :: 0 <= j < |names| ==> s[j] == (ElementIndex(d, names[j]), FromValue(values[j]))
  {
    seq(|names|, j requires 0 <= j < |names| => (ElementIndex(d, names[j]), FromValue(values[j])))
  }

  /** The decoder once a class document has answered DECODE_DONE. */
  function DocumentEndMachine(m: Machine, conf: BsonConf, d: Descriptor, names: seq<string>, values: seq<BsonValue>): Machine
    requires |names| == |values|
  {
    var last := FieldMachine(m, conf, d, names, values, |names|);
    last.(reader := last.reader.(state := ReaderState.END_OF_DOCUMENT))
  }

  /** At every field of a class document, `round` hands out the index of the field's name
      and reads the value from its token. */
  ghost predicate ReadsFields(round: Machine -> Result<Round, Error>, conf: BsonConf, d: Descriptor) {
    forall x, n, v {:trigger AtField(x, n, v)} :: AtField(x, n, v) ==>
      round(x) == Success(Read(ElementIndex(d, n), FromValue(v), AfterField(x, conf, d, n, v)))
  }

  /** At the end of a class document, `round` answers DECODE_DONE. */
  ghost predicate EndsDocuments(round: Machine -> Result<Round, Error>) {
    forall x {:trigger AtDocumentEnd(x)} :: AtDocumentEnd(x) ==>
      round(x) == Success(Finished(x.(reader := x.reader.(state := ReaderState.END_OF_DOCUMENT))))
  }

  /** What the loop over a class document yields: for each field, in the order of the
      document, the index of its name and its value, then DECODE_DONE, and a decoder at the
      end of the document two tokens further on per field. */
  predicate FieldsRead(m: Machine, d: Descriptor, names: seq<string>, values: seq<BsonValue>, r: Result<(seq<int>, seq<Source>, Machine), Error>)
    requires |names| == |values|
  {
    && r.Success?
    && |r.value.0| == |names| + 1 && r.value.0[|names|] == DECODE_DONE
    && |r.value.1| == |names|
    && (forall j :: 0 <= j < |names| ==> r.value.0[j] == ElementIndex(d, names[j]) && r.value.1[j] == FromValue(values[j]))
    && r.value.2.state == m.state
    && r.value.2.stack == m.stack
    && r.value.2.reader.pos == m.reader.pos + 2 * |names|
    && r.value.2.reader.state == ReaderState.END_OF_DOCUMENT
    && r.value.2.reader.tokens == m.reader.tokens && r.value.2.reader.depth == m.reader.depth
  }

  /** The decoders a class document passes through and its rounds form a script of a
      round that reads fields and ends documents. */
  lemma FieldsScripted(round: Machine -> Result<Round, Error>, m: Machine, conf: BsonConf, d: Descriptor, names: seq<string>, values: seq<BsonValue>)
    requires m.state == DecoderState.DOCUMENT
    requires m.reader.state == TYPE && m.reader.depth > 0
    requires EntriesThenEnd(m.reader, names, values)
    requires ReadsFields(round, conf, d) && EndsDocuments(round)
    ensures Scripted(round, FieldMachines(m, conf, d, names, values), FieldScript(d, names, values), DocumentEndMachine(m, conf, d, names, values))
  {
    var ms := FieldMachines(m, conf, d, names, values);
    var script := FieldScript(d, names, values);
    forall j | 0 <= j < |script|
      ensures round(ms[j]) == Success(Read(script[j].0, script[j].1, ms[j + 1]))
    {
      FieldAt(m, conf, d, names, values, j);
      assert ms[j + 1] == AfterField(ms[j], conf, d, names[j], values[j]);
    }
    FieldsAtEnd(m, conf, d, names, values);
    assert ms[|script|] == FieldMachine(m, conf, d, names, values, |names|);
  }

  /** The script of a class document, collected, is what FieldsRead describes. */
  lemma FieldsReadByScript(m: Machine, conf: BsonConf, d: Descriptor, names: seq<string>, values: seq<BsonValue>, r: Result<(seq<int>, seq<Source>, Machine), Error>)
    requires |names| == |values|
    requires r == Success((Indices(FieldScript(d, names, values)) + [DECODE_DONE], Sources(FieldScript(d, names, values)), DocumentEndMachine(m, conf, d, names, values)))
    ensures FieldsRead(m, d, names, values, r)
  {
    var s := FieldScript(d, names, values);
    forall j | 0 <= j < |names|
      ensures r.value.0[j] == ElementIndex(d, names[j]) && r.value.1[j] == FromValue(values[j])
    {
      assert s[j] == (ElementIndex(d, names[j]), FromValue(values[j]));
      assert r.value.0[j] == Indices(s)[j];
    }
    FieldMachineShape(m, conf, d, names, values, |names|);
  }

  /** A round that reads fields and ends documents reads a whole class document, whatever
      the order of its fields, and whether or not the class declares them. */
  lemma FieldsReadFromSteps(round: Machine -> Result<Round, Error>, m: Machine, conf: BsonConf, d: Descriptor, names: seq<string>, values: seq<BsonValue>)
    requires m.state == DecoderState.DOCUMENT
    requires m.reader.state == TYPE && m.reader.depth > 0
    requires EntriesThenEnd(m.reader, names, values)
    requires ReadsFields(round, conf, d) && EndsDocuments(round)
    ensures FieldsRead(m, d, names, values, Loop(round, m, |names| + 1))
  {
    FieldsScripted(round, m, conf, d, names, values);
    assert FieldMachines(m, conf, d, names, values)[0] == m;
    LoopFollowsScript(round, FieldMachines(m, conf, d, names, values), FieldScript(d, names, values), DocumentEndMachine(m, conf, d, names, values), |names| + 1);
    FieldsReadByScript(m, conf, d, names, values, Loop(round, m, |names| + 1));
  }

  /** The calls a generated serializer makes on a decoder, with their results dropped. */
  datatype Call =
    | Begin(descriptor: Descriptor)
    | End(descriptor: Descriptor)
    | NextIndex(descriptor: Descriptor)
    | NotNullMark
    | Decode(primitive: PrimitiveCall)

  datatype PrimitiveCall =
    AsBoolean | AsByte | AsChar | AsDouble | AsInt | AsLong | AsNull | AsShort | AsString | AsEnum(enumDescriptor: Descriptor) | AsByteArray

  /** What one call may do to the frame stack: beginStructure pushes the current frame,
      endStructure pops and reinstates one, and nothing else touches it. */
  predicate StackDiscipline(m: Machine, c: Call, r: Result<Machine, Error>) {
    r.Success? ==>
      match c
      case Begin(_) => r.value.stack == m.stack + [Frame(Saved(m.state), m.currentIndex)]
      case End(_) =>
        && |m.stack| > 0
        && r.value.stack == m.stack[..|m.stack| - 1]
        && r.value.state == m.stack[|m.stack| - 1].state
        && r.value.currentIndex == m.stack[|m.stack| - 1].index
      case _ => r.value.stack == m.stack
  }

  /** A decoder whose every call keeps the stack discipline. */
  ghost predicate Disciplined(step: (Machine, Call) -> Result<Machine, Error>) {
    forall m, c :: StackDiscipline(m, c, step(m, c))
  }

  /** The decoder after a sequence of calls, stopping at the first exception. */
  function Run(step: (Machine, Call) -> Result<Machine, Error>, m: Machine, calls: seq<Call>): Result<Machine, Error>
    decreases |calls|
  {
    if |calls| == 0 then Success(m)
    else
      var m1 :- Run(step, m, calls[..|calls| - 1]);
      step(m1, calls[|calls| - 1])
  }

  /** beginStructure calls minus endStructure calls. */
  function Depth(calls: seq<Call>): int
    decreases |calls|
  {
    if |calls| == 0 then 0
    else Depth(calls[..|calls| - 1]) + (match calls[|calls| - 1] case Begin(_) => 1 case End(_) => -1 case _ => 0)
  }

  /** No prefix closes more structures than it opened. */
  predicate NeverUnderflows(calls: seq<Call>) {
    forall k :: 0 <= k <= |calls| ==> Depth(calls[..k]) >= 0
  }

  /** No saved frame holds MAP_VALUE. */
  predicate FramesSaved(m: Machine) {
    forall i :: 0 <= i < |m.stack| ==> m.stack[i].state != MAP_VALUE
  }

  /** Every completed run that never closes more than it opened leaves the frames it found
      untouched below the ones still open, one per open structure. */
  lemma {:induction false} RunKeepsOuterFrames(step: (Machine, Call) -> Result<Machine, Error>, m: Machine, calls: seq<Call>)
    requires Disciplined(step)
    requires NeverUnderflows(calls)
    requires Run(step, m, calls).Success?
    ensures Depth(calls) >= 0
    ensures |Run(step, m, calls).value.stack| == |m.stack| + Depth(calls)
    ensures Run(step, m, calls).value.stack[..|m.stack|] == m.stack
    decreases |calls|
  {
    assert calls[..|calls|] == calls;
    if |calls| > 0 {
      var init := calls[..|calls| - 1];
      assert NeverUnderflows(init) by {
        forall k | 0 <= k <= |init| ensures Depth(init[..k]) >= 0 {
          assert init[..k] == calls[..k];
        }
      }
      RunKeepsOuterFrames(step, m, init);
      var m1 := Run(step, m, init).value;
      assert calls[..|calls|] == calls;
      assert StackDiscipline(m1, calls[|calls| - 1], step(m1, calls[|calls| - 1]));
    }
  }

  /** Frames never hold MAP_VALUE, whatever the calls. */
  lemma {:induction false} RunKeepsFramesSaved(step: (Machine, Call) -> Result<Machine, Error>, m: Machine, calls: seq<Call>)
    requires Disciplined(step)
    requires FramesSaved(m)
    requires Run(step, m, calls).Success?
    ensures FramesSaved(Run(step, m, calls).value)
    decreases |calls|
  {
    if |calls| > 0 {
      var init := calls[..|calls| - 1];
      RunKeepsFramesSaved(step, m, init);
      var m1 := Run(step, m, init).value;
      assert StackDiscipline(m1, calls[|calls| - 1], step(m1, calls[|calls| - 1]));
    }
  }

  /** A structure opened, filled by balanced calls and closed again gives the decoder back
      its stack and cursor, with MAP_VALUE turned into MAP_KEY. */
  lemma BalancedStructureRestores(step: (Machine, Call) -> Result<Machine, Error>, m: Machine, open: Descriptor, inner: seq<Call>, close: Descriptor)
    requires Disciplined(step)
    requires NeverUnderflows(inner) && Depth(inner) == 0
    requires Run(step, m, [Begin(open)] + inner + [End(close)]).Success?
    ensures var r := Run(step, m, [Begin(open)] + inner + [End(close)]).value;
      r.stack == m.stack && r.state == Saved(m.state) && r.currentIndex == m.currentIndex
  {
    var calls := [Begin(open)] + inner + [End(close)];
    assert calls[..|calls| - 1] == [Begin(open)] + inner;
    assert Run(step, m, [Begin(open)]) == step(m, Begin(open)) by {
      assert [Begin(open)][..0] == [];
    }
    RunSplit(step, m, [Begin(open)], inner);
    var m1 := step(m, Begin(open)).value;
    assert StackDiscipline(m, Begin(open), step(m, Begin(open)));
    RunKeepsOuterFrames(step, m1, inner);
    var m2 := Run(step, m1, inner).value;
    assert m2.stack == m.stack + [Frame(Saved(m.state), m.currentIndex)];
    assert StackDiscipline(m2, End(close), step(m2, End(close)));
    assert (m.stack + [Frame(Saved(m.state), m.currentIndex)])[..|m.stack|] == m.stack;
  }

  /** Running two call sequences back to back is running the first, then the second. */
  lemma {:induction false} RunSplit(step: (Machine, Call) -> Result<Machine, Error>, m: Machine, first: seq<Call>, second: seq<Call>)
    ensures Run(step, m, first + second) ==
      match Run(step, m, first)
      case Success(m1) => Run(step, m1, second)
      case Failure(e) => Failure(e)
    decreases |second|
  {
    if |second| == 0 {
      assert first + second == first;
    } else {
      var init := second[..|second| - 1];
      assert (first + second)[..|first + second| - 1] == first + init;
      assert (first + second)[|first + second| - 1] == second[|second| - 1];
      RunSplit(step, m, first, init);
    }
  }
}
