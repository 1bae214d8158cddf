/** The earlier decoder, io.imotions.bson4k.decoder.BsonDecoder. It walks the reader the
    same way as the current one, with three differences: a list's cursor starts at -1 and
    is moved on before it is handed out, its exceptions are plain SerializationExceptions,
    and it never converts between 32- and 64-bit integers. beginStructure also lets a kind
    that is neither a structure nor polymorphic through, having saved a frame. */
module LegacyDecoder {

  import opened Wrappers
  import opened Tokens
  import opened Errors
  import opened BsonReader
  import opened Descriptors
  import opened BsonKinds
  import opened BsonConfig
  import opened Platform
  import opened TypeMapping
  import opened DecoderCore
  import Decoder

  /** SerializationException("Bson document cannot be decoded to a primitive type") */
  const AtRoot: Error := SerializationException(PrimitiveWithoutContainer)

  /** A new decoder over `reader`: DOCUMENT state, cursor -1, no mapper, nothing saved. */
  function Start(reader: Reader): Machine {
    Machine(reader, DecoderState.DOCUMENT, -1, None, [])
  }

  /** decodeElementIndex(descriptor). A list increments its cursor and then hands it out;
      a missing discriminator is a SerializationException naming the expected field. */
  function DecodeElementIndexStep(m: Machine, conf: BsonConf, d: Descriptor): (r: Result<(int, Machine), Error>)
    ensures r.Success? ==> r.value.1.stack == m.stack && r.value.1.state == m.state
  {
    var p :- match m.state
      case DOCUMENT => DocumentIndex(m, d)
      case LIST =>
        var t :- ReadBsonType(m.reader);
        if t.0 == BsonType.END_OF_DOCUMENT then Success((DECODE_DONE, m.(reader := t.1)))
        else Success((m.currentIndex + 1, m.(reader := t.1, currentIndex := m.currentIndex + 1)))
      case MAP_KEY => MapKeyIndex(m)
      case MAP_VALUE => Success((1, m))
      case POLYMORPHIC =>
        PolymorphicIndex(m, conf, d, SerializationException(UnknownClassDiscriminator(conf.classDiscriminator)));
    var m1 :- ChooseMapper(p.1, conf, d, p.0);
    Success((p.0, m1))
  }

  /** What each state of decodeElementIndex hands out: MAP_VALUE always 1; a list its
      cursor once moved on by one, until the end of the array; MAP_KEY 0 or DECODE_DONE
      without consuming the field name; a polymorphic value 0, 1, then DECODE_DONE. A real
      index installs the mapping of that element, except in MAP_KEY. A class document hands
      out the index of the field named next, consuming the name, and DECODE_DONE at its end. */
  lemma ElementIndexCases(m: Machine, conf: BsonConf, d: Descriptor)
    ensures var r := DecodeElementIndexStep(m, conf, d);
      && (m.state == MAP_VALUE && r.Success? ==> r.value.0 == 1 && r.value.1.reader == m.reader)
      && (m.state == DecoderState.LIST && r.Success? ==>
            if r.value.1.reader.state in {ReaderState.END_OF_DOCUMENT, END_OF_ARRAY}
            then r.value.0 == DECODE_DONE && r.value.1.currentIndex == m.currentIndex
            else r.value.0 == m.currentIndex + 1 && r.value.1.currentIndex == m.currentIndex + 1)
      && (m.state == MAP_KEY && r.Success? ==>
            (r.value.0 == 0 || r.value.0 == DECODE_DONE) && r.value.1.reader.pos == m.reader.pos)
      && (m.state == POLYMORPHIC && r.Success? ==>
            && (m.currentIndex == 0 ==> r.value.0 == 0 && r.value.1.currentIndex == 1)
            && (m.currentIndex == 1 ==> r.value.0 == 1 && r.value.1.currentIndex == 2 && r.value.1.reader == m.reader)
            && (m.currentIndex != 0 && m.currentIndex != 1 ==> r.value == (DECODE_DONE, m)))
      && (m.state == DecoderState.DOCUMENT && r.Success? ==>
            r.value.0 == DECODE_DONE || r.value.0 == UNKNOWN_NAME || 0 <= r.value.0 < |d.elements|)
      && (m.state == DecoderState.DOCUMENT && NamedAt(m.reader) ==>
            && r.Success? && r.value.0 == ElementIndex(d, m.reader.tokens[m.reader.pos].name)
            && r.value.1.reader == m.reader.(pos := m.reader.pos + 1, state := VALUE,
                                             currentBsonType := ValueTypeOf(m.reader.tokens[m.reader.pos + 1])))
      && (m.state == DecoderState.DOCUMENT && m.reader.state == TYPE && m.reader.pos < |m.reader.tokens|
          && m.reader.tokens[m.reader.pos] == EndDocument ==>
            r == Success((DECODE_DONE, m.(reader := m.reader.(state := ReaderState.END_OF_DOCUMENT)))))
      && (r.Success? && r.value.0 >= 0 && m.state == MAP_KEY ==> r.value.1.useMapper == None)
      && (r.Success? && r.value.0 >= 0 && m.state != MAP_KEY ==>
            ElementTypeAt(d, r.value.0).Some?
            && r.value.1.useMapper == MappingFor(conf.bsonTypeMappings, ElementTypeAt(d, r.value.0).value))
      && (r.Success? && r.value.0 < 0 ==> r.value.1.useMapper == m.useMapper)
  {
  }

  /** beginStructure(descriptor): save the current frame, then enter the structure. A
      list's cursor starts at -1. A map whose keys are classes is read as an array when
      structured map keys are allowed. A kind that is neither a structure nor polymorphic
      matches no branch: only the frame is saved. */
  function BeginStructureStep(m: Machine, conf: BsonConf, d: Descriptor): (r: Result<Machine, Error>)
    ensures r.Success? ==> r.value.stack == m.stack + [Frame(Saved(m.state), m.currentIndex)] && r.value.useMapper == m.useMapper
    ensures !IsStructureKind(d.kind) && !IsPolymorphicKind(d.kind) ==> r == Success(Preserve(m))
    ensures r.Success? && d.kind == SerialKind.LIST ==> r.value.state == DecoderState.LIST && r.value.currentIndex == -1
    ensures d.kind == SerialKind.MAP && |d.elements| == 0 ==> r == Failure(NoSuchElement)
    ensures r.Success? && d.kind == SerialKind.MAP ==>
      if d.elements[0].elementType.kind == CLASS && conf.allowStructuredMapKeys
      then r.value.state == DecoderState.LIST && r.value.currentIndex == -1
      else r.value.state == MAP_KEY && r.value.currentIndex == m.currentIndex
    ensures r.Success? && IsPolymorphicKind(d.kind) ==> r.value.state == POLYMORPHIC && r.value.currentIndex == 0
    ensures r.Success? && (d.kind == CLASS || d.kind == OBJECT) ==>
      r.value.state == DecoderState.DOCUMENT && r.value.currentIndex == m.currentIndex
    ensures r.Success? && (d.kind == CLASS || d.kind == OBJECT) && m.state == POLYMORPHIC ==> r.value.reader == m.reader
    ensures r.Success? && (IsStructureKind(d.kind) || IsPolymorphicKind(d.kind)) ==>
      !((d.kind == CLASS || d.kind == OBJECT) && m.state == POLYMORPHIC) ==> r.value.reader.depth == m.reader.depth + 1
  {
    var m0 := Preserve(m);
    match d.kind
    case LIST => BeginList(m0, -1)
    case MAP =>
      var k :- FirstKind(d);
      if k == CLASS && conf.allowStructuredMapKeys then BeginList(m0, -1) else BeginMapDocument(m0)
    case SEALED => BeginPolymorphic(m0)
    case OPEN => BeginPolymorphic(m0)
    case CLASS => BeginClass(m0)
    case OBJECT => BeginClass(m0)
    case _ => Success(m0)
  }

  /** decodeLong(): a DATE-mapped element is a date-time, any other is read as INT64. */
  function DecodeLongStep(m: Machine, p: Platform): (r: Result<(Int64, Machine), Error>)
    ensures r.Success? ==> r.value.1.stack == m.stack && r.value.1.currentIndex == m.currentIndex
    ensures m.useMapper == Some(DATE) ==> r == DecodeDateTimeStep(m, p, AtRoot)
    ensures m.useMapper != Some(DATE) ==> r == DecodeInt64Step(m, p, AtRoot)
  {
    if m.useMapper == Some(DATE) then DecodeDateTimeStep(m, p, AtRoot) else DecodeInt64Step(m, p, AtRoot)
  }

  /** decodeByte(): decodeInt() cut to its low 8 bits. */
  function DecodeByteStep(m: Machine, p: Platform): (r: Result<(Int8, Machine), Error>)
    ensures r.Success? ==> r.value.1.stack == m.stack && r.value.1.currentIndex == m.currentIndex
  {
    var i :- DecodeInt32Step(m, p, AtRoot);
    Success((ToByte(i.0), i.1))
  }

  /** decodeShort(): decodeInt() cut to its low 16 bits. */
  function DecodeShortStep(m: Machine, p: Platform): (r: Result<(Int16, Machine), Error>)
    ensures r.Success? ==> r.value.1.stack == m.stack && r.value.1.currentIndex == m.currentIndex
  {
    var i :- DecodeInt32Step(m, p, AtRoot);
    Success((ToShort(i.0), i.1))
  }

  /** One call of `c` on the decoder, its result dropped. */
  function Step(m: Machine, conf: BsonConf, p: Platform, c: Call): (r: Result<Machine, Error>)
    ensures StackDiscipline(m, c, r)
  {
    match c
    case Begin(d) => BeginStructureStep(m, conf, d)
    case End(d) => EndStructureStep(m, d)
    case NextIndex(d) => Drop(DecodeElementIndexStep(m, conf, d))
    case NotNullMark => Drop(DecodeNotNullMarkStep(m))
    case Decode(AsBoolean) => Drop(DecodeBooleanStep(m, p, AtRoot))
    case Decode(AsByte) => Drop(DecodeByteStep(m, p))
    case Decode(AsChar) => Drop(DecodeCharStep(m, p, AtRoot))
    case Decode(AsDouble) => Drop(DecodeDoubleStep(m, p, AtRoot))
    case Decode(AsInt) => Drop(DecodeInt32Step(m, p, AtRoot))
    case Decode(AsLong) => Drop(DecodeLongStep(m, p))
    case Decode(AsNull) => Drop(DecodeNullStep(m, AtRoot))
    case Decode(AsShort) => Drop(DecodeShortStep(m, p))
    case Decode(AsString) => Drop(DecodeStringStep(m, p, AtRoot))
    case Decode(AsEnum(e)) => Drop(DecodeEnumStep(m, p, e, AtRoot))
    case Decode(AsByteArray) => Drop(DecodeByteArrayStep(m, p, AtRoot))
  }

  /** The decoder as a step function, for runs of calls. */
  function Stepper(conf: BsonConf, p: Platform): (Machine, Call) -> Result<Machine, Error> {
    (m: Machine, c: Call) => Step(m, conf, p, c)
  }

  /** Every decoder call keeps the stack discipline. */
  lemma StepperDisciplined(conf: BsonConf, p: Platform)
    ensures Disciplined(Stepper(conf, p))
  {
    forall m: Machine, c: Call
      ensures StackDiscipline(m, c, Stepper(conf, p)(m, c))
    {
      assert Stepper(conf, p)(m, c) == Step(m, conf, p, c);
    }
  }

  /** beginStructure, any balanced run of calls, endStructure: the decoder is back in the
      frame it started from, with MAP_VALUE turned into MAP_KEY. */
  lemma StructureRestoresFrame(conf: BsonConf, p: Platform, m: Machine, open: Descriptor, inner: seq<Call>, close: Descriptor)
    requires NeverUnderflows(inner) && Depth(inner) == 0
    requires Run(Stepper(conf, p), m, [Begin(open)] + inner + [End(close)]).Success?
    ensures var r := Run(Stepper(conf, p), m, [Begin(open)] + inner + [End(close)]).value;
      r.stack == m.stack && r.state == Saved(m.state) && r.currentIndex == m.currentIndex
  {
    StepperDisciplined(conf, p);
    BalancedStructureRestores(Stepper(conf, p), m, open, inner, close);
  }

  /** No run of calls ever saves a MAP_VALUE frame. */
  lemma NoMapValueFrames(conf: BsonConf, p: Platform, m: Machine, calls: seq<Call>)
    requires FramesSaved(m)
    requires Run(Stepper(conf, p), m, calls).Success?
    ensures FramesSaved(Run(Stepper(conf, p), m, calls).value)
  {
    StepperDisciplined(conf, p);
    RunKeepsFramesSaved(Stepper(conf, p), m, calls);
  }

  /** One round of a generated serializer's element loop: the index decodeElementIndex
      hands out and, unless it is DECODE_DONE, the current element read as whatever type
      it has. */
  function ElementRound(conf: BsonConf, d: Descriptor, m: Machine): Result<Round, Error> {
    match DecodeElementIndexStep(m, conf, d)
    case Failure(err) => Failure(err)
    case Success(i) =>
      if i.0 == DECODE_DONE then Success(Finished(i.1))
      else
        match DecodeBsonElementStep(i.1, i.1.reader.currentBsonType, AtRoot)
        case Failure(err) => Failure(err)
        case Success(e) => Success(Read(i.0, e.0, e.1))
  }

  /** ElementRound as the round of a Loop. */
  function Rounds(conf: BsonConf, d: Descriptor): Machine -> Result<Round, Error> {
    m => ElementRound(conf, d, m)
  }

  /** At a value token a list moves its cursor on, hands it out and reads the value. */
  lemma ListElementRound(m: Machine, conf: BsonConf, d: Descriptor, v: BsonValue)
    requires AtListElement(m, d, v) && m.currentIndex >= -1
    ensures Rounds(conf, d)(m) == Success(Read(m.currentIndex + 1, FromValue(v), AfterListElement(m, conf, d, v)))
  {
    ListElementIndex(m, conf, d, v);
    ReadsValueToken(ListIndexed(m, conf, d, v), v, AtRoot);
  }

  /** At a list element decodeElementIndex moves the cursor on and hands it out. */
  lemma ListElementIndex(m: Machine, conf: BsonConf, d: Descriptor, v: BsonValue)
    requires AtListElement(m, d, v) && m.currentIndex >= -1
    ensures DecodeElementIndexStep(m, conf, d) == Success((m.currentIndex + 1, ListIndexed(m, conf, d, v)))
  {
    TypeOfValueToken(m.reader, v);
  }

  /** The element rounds of a list: each element read at the cursor plus one, DECODE_DONE
      at the end. */
  lemma ElementRoundsReadLists(conf: BsonConf, d: Descriptor)
    ensures ReadsListElements(Rounds(conf, d), conf, d, -1, 1)
    ensures EndsLists(Rounds(conf, d))
  {
    forall x, v | AtListElement(x, d, v) && x.currentIndex >= -1
      ensures Rounds(conf, d)(x) == Success(Read(x.currentIndex + 1, FromValue(v), AfterListElement(x, conf, d, v)))
    {
      ListElementRound(x, conf, d, v);
    }
  }

  /** A list hands out its cursor plus one, then plus two and so on, once per element,
      reads each element from its value token and answers DECODE_DONE at the end of the
      array. */
  lemma ListCountsFromCursor(m: Machine, conf: BsonConf, d: Descriptor, values: seq<BsonValue>)
    requires m.state == DecoderState.LIST && m.currentIndex >= -1
    requires m.reader.state == TYPE && m.reader.depth > 0
    requires ScalarsThenEnd(m.reader, values, EndArray)
    requires d.kind == SerialKind.LIST && |d.elements| == 1
    ensures CountedList(m, m.currentIndex + 1, values, Loop(Rounds(conf, d), m, |values| + 1))
  {
    ElementRoundsReadLists(conf, d);
    ListRoundsFromSteps(Rounds(conf, d), m, conf, d, values, -1, 1, m.currentIndex + 1);
    ListLoopCounts(Rounds(conf, d), m, conf, d, values, m.currentIndex + 1);
  }

  /** Entered at its start cursor, a list yields in this decoder the same indices and
      elements as in the current one entered at its own start cursor: the pre-increment
      from -1 and the post-increment from 0 both hand out 0, 1, 2, ... */
  lemma ListIndicesAgree(m: Machine, conf: BsonConf, d: Descriptor, values: seq<BsonValue>)
    requires m.state == DecoderState.LIST && m.currentIndex == -1
    requires m.reader.state == TYPE && m.reader.depth > 0
    requires ScalarsThenEnd(m.reader, values, EndArray)
    requires d.kind == SerialKind.LIST && |d.elements| == 1
    ensures var legacy := Loop(Rounds(conf, d), m, |values| + 1);
      var current := Loop(Decoder.Rounds(conf, d), m.(currentIndex := 0), |values| + 1);
      && legacy.Success? && current.Success?
      && legacy.value.0 == current.value.0 == Count(0, |values|) + [DECODE_DONE]
      && legacy.value.1 == current.value.1
  {
    ListCountsFromCursor(m, conf, d, values);
    Decoder.ListCountsFromCursor(m.(currentIndex := 0), conf, d, values);
  }

  /** At a field name a map hands out index 0 and reads the key from the name. */
  lemma MapKeyRound(m: Machine, conf: BsonConf, d: Descriptor, key: string, v: BsonValue)
    requires AtMapEntry(m, d, key, v)
    ensures Rounds(conf, d)(m) == Success(Read(0, FromName(key), AfterMapKey(m, v)))
  {
    TypeOfNamedToken(m.reader, key, v);
    var m1 := m.(reader := m.reader.(state := NAME, currentBsonType := Some(TypeOf(v))), useMapper := None);
    assert DecodeElementIndexStep(m, conf, d) == Success((0, m1));
    ReadsKeyName(m1, Some(TypeOf(v)), key, AtRoot);
  }

  /** After the key a map hands out index 1, reads the value and expects the next key. */
  lemma MapValueRound(m: Machine, conf: BsonConf, d: Descriptor, key: string, v: BsonValue)
    requires AtMapEntry(m, d, key, v)
    ensures Rounds(conf, d)(AfterMapKey(m, v)) == Success(Read(1, FromValue(v), AfterMapEntry(m, conf, d, v)))
  {
    var m3 := AfterMapKey(m, v).(useMapper := MappingFor(conf.bsonTypeMappings, d.elements[1].elementType));
    assert DecodeElementIndexStep(AfterMapKey(m, v), conf, d) == Success((1, m3));
    ReadsValueToken(m3, v, AtRoot);
    assert m3.(state := MAP_KEY, reader := m3.reader.(pos := m3.reader.pos + 1, state := NextState(m3.reader.depth)))
      == AfterMapEntry(m, conf, d, v);
  }

  /** The element rounds of a map: 0 and the key, 1 and the value, DECODE_DONE at the end. */
  lemma ElementRoundsReadMaps(conf: BsonConf, d: Descriptor)
    ensures ReadsMapEntries(Rounds(conf, d), conf, d)
    ensures EndsMaps(Rounds(conf, d))
  {
    forall x, k, v | AtMapEntry(x, d, k, v)
      ensures Rounds(conf, d)(x) == Success(Read(0, FromName(k), AfterMapKey(x, v)))
      ensures Rounds(conf, d)(AfterMapKey(x, v)) == Success(Read(1, FromValue(v), AfterMapEntry(x, conf, d, v)))
    {
      MapKeyRound(x, conf, d, k, v);
      MapValueRound(x, conf, d, k, v);
    }
    forall x | AtMapEnd(x)
      ensures Rounds(conf, d)(x) == Success(Finished(x.(reader := x.reader.(state := ReaderState.END_OF_DOCUMENT))))
    {
      MapEndRound(x, conf, d);
    }
  }

  /** At the end of a map's document decodeElementIndex answers DECODE_DONE. */
  lemma MapEndRound(m: Machine, conf: BsonConf, d: Descriptor)
    requires AtMapEnd(m)
    ensures Rounds(conf, d)(m) == Success(Finished(m.(reader := m.reader.(state := ReaderState.END_OF_DOCUMENT))))
  {
    var m1 := m.(reader := m.reader.(state := ReaderState.END_OF_DOCUMENT));
    assert MapKeyIndex(m) == Success((DECODE_DONE, m1));
    assert DecodeElementIndexStep(m, conf, d) == Success((DECODE_DONE, m1));
  }

  /** A map with primitive keys hands out 0 for each key and 1 for each value, reads
      each key from its field name and each value from its token, and answers DECODE_DONE
      at the end of the document. */
  lemma MapAlternatesKeyAndValue(m: Machine, conf: BsonConf, d: Descriptor, keys: seq<string>, values: seq<BsonValue>)
    requires m.state == MAP_KEY
    requires m.reader.state == TYPE && m.reader.depth > 0
    requires EntriesThenEnd(m.reader, keys, values)
    requires d.kind == SerialKind.MAP && |d.elements| == 2
    ensures AlternatedMap(m, keys, values, Loop(Rounds(conf, d), m, 2 * |keys| + 1))
  {
    ElementRoundsReadMaps(conf, d);
    MapRoundsFromSteps(Rounds(conf, d), m, conf, d, keys, values);
    MapLoopAlternates(Rounds(conf, d), m, conf, d, keys, values);
  }

  /** At a field name a class document hands out the index of that name (UNKNOWN_NAME for
      a field the class does not declare), installs its mapping and reads the value. */
  lemma FieldRound(m: Machine, conf: BsonConf, d: Descriptor, name: string, v: BsonValue)
    requires AtField(m, name, v)
    ensures Rounds(conf, d)(m) == Success(Read(ElementIndex(d, name), FromValue(v), AfterField(m, conf, d, name, v)))
  {
    FieldIndexed(m, conf, d, name, v);
    ReadsValueToken(FieldNamed(m, conf, d, name, v), v, AtRoot);
  }

  /** decodeElementIndex at a field: the index of its name, the name consumed and the
      mapping of that element installed. */
  lemma FieldIndexed(m: Machine, conf: BsonConf, d: Descriptor, name: string, v: BsonValue)
    requires AtField(m, name, v)
    ensures DecodeElementIndexStep(m, conf, d) == Success((ElementIndex(d, name), FieldNamed(m, conf, d, name, v)))
  {
    var m1 := FieldNamed(m, conf, d, name, v);
    var mr := m.(reader := m1.reader);
    assert DocumentIndex(m, d) == Success((ElementIndex(d, name), mr));
    assert ChooseMapper(mr, conf, d, ElementIndex(d, name)) == Success(m1);
  }

  /** The element rounds of a class document: each field by its name, DECODE_DONE at the end. */
  lemma ElementRoundsReadDocuments(conf: BsonConf, d: Descriptor)
    ensures ReadsFields(Rounds(conf, d), conf, d)
    ensures EndsDocuments(Rounds(conf, d))
  {
    forall x, n, v | AtField(x, n, v)
      ensures Rounds(conf, d)(x) == Success(Read(ElementIndex(d, n), FromValue(v), AfterField(x, conf, d, n, v)))
    {
      FieldRound(x, conf, d, n, v);
    }
  }

  /** A class document hands out, field by field in the order the document has them, the
      index of each field's name and reads its value from its token, then answers
      DECODE_DONE at the end of the document. */
  lemma DocumentReadsFields(m: Machine, conf: BsonConf, d: Descriptor, names: seq<string>, values: seq<BsonValue>)
    requires m.state == DecoderState.DOCUMENT
    requires m.reader.state == TYPE && m.reader.depth > 0
    requires EntriesThenEnd(m.reader, names, values)
    ensures FieldsRead(m, d, names, values, Loop(Rounds(conf, d), m, |names| + 1))
  {
    ElementRoundsReadDocuments(conf, d);
    FieldsReadFromSteps(Rounds(conf, d), m, conf, d, names, values);
  }

  /** The first field of a polymorphic value must be the class discriminator: index 0 if
      it is, a SerializationException naming the expected discriminator if it is not. */
  lemma DiscriminatorComesFirst(m: Machine, conf: BsonConf, d: Descriptor, name: string)
    requires m.state == POLYMORPHIC && m.currentIndex == 0 && m.reader.state == TYPE
    requires m.reader.pos + 1 < |m.reader.tokens| && m.reader.tokens[m.reader.pos] == Name(name)
    requires ValueTypeOf(m.reader.tokens[m.reader.pos + 1]).Some?
    requires |d.elements| > 0
    ensures name == conf.classDiscriminator ==>
      DecodeElementIndexStep(m, conf, d).Success? && DecodeElementIndexStep(m, conf, d).value.0 == 0
    ensures name != conf.classDiscriminator ==>
      DecodeElementIndexStep(m, conf, d) == Failure(SerializationException(UnknownClassDiscriminator(conf.classDiscriminator)))
  {
  }

  /** decodeInt() on an INT64 element is rejected by the reader, whatever the
      configuration says about implicit integer conversion. */
  lemma IntRejectsInt64(m: Machine, conf: BsonConf, p: Platform, l: Int64)
    requires m.state != MAP_KEY && m.reader.state == VALUE && m.reader.currentBsonType == Some(INT64)
    requires m.reader.pos < |m.reader.tokens| && m.reader.tokens[m.reader.pos] == Value(BsonInt64(l))
    ensures Step(m, conf, p, Decode(AsInt)) == Failure(InvalidOperation(TypeMismatch(INT32, Some(INT64))))
  {
  }

  /** decodeLong() on an INT32 element that no DATE mapping applies to is rejected by the
      reader, whatever the configuration says about implicit integer conversion. */
  lemma LongRejectsInt32(m: Machine, conf: BsonConf, p: Platform, i: Int32)
    requires m.useMapper != Some(DATE)
    requires m.state != MAP_KEY && m.reader.state == VALUE && m.reader.currentBsonType == Some(INT32)
    requires m.reader.pos < |m.reader.tokens| && m.reader.tokens[m.reader.pos] == Value(BsonInt32(i))
    ensures Step(m, conf, p, Decode(AsLong)) == Failure(InvalidOperation(TypeMismatch(INT64, Some(INT32))))
  {
  }

  class BsonDecoder {
    var reader: Reader
    const conf: BsonConf
    const platform: Platform
    var stateStack: seq<Frame>
    var state: DecoderState
    var currentIndex: int
    var useMapper: Option<BsonKind>

    function Model(): Machine
      reads this
    {
      Machine(reader, state, currentIndex, useMapper, stateStack)
    }

    constructor(reader: Reader, conf: BsonConf, platform: Platform)
      ensures Model() == Start(reader)
      ensures this.conf == conf && this.platform == platform
    {
      this.reader := reader;
      this.conf := conf;
      this.platform := platform;
      stateStack := [];
      state := DecoderState.DOCUMENT;
      currentIndex := -1;
      useMapper := None;
    }

    method DecodeElementIndex(descriptor: Descriptor) returns (r: Result<int, Error>)
      modifies this
      ensures Committed(r, Model()) == old(DecodeElementIndexStep(Model(), conf, descriptor))
    {
      var idx: int;
      match state {
        case DOCUMENT =>
          idx :- DocumentElementIndex(descriptor);
        case LIST =>
          var t :- ReadBsonType(reader);
          reader := t.1;
          if t.0 == BsonType.END_OF_DOCUMENT {
            idx := DECODE_DONE;
          } else {
            currentIndex := currentIndex + 1;
            idx := currentIndex;
          }
        case MAP_KEY =>
          var t :- ReadBsonType(reader);
          reader := t.1;
          idx := if t.0 == BsonType.END_OF_DOCUMENT then DECODE_DONE else 0;
        case MAP_VALUE =>
          idx := 1;
        case POLYMORPHIC =>
          if currentIndex == 0 {
            if reader.state == TYPE {
              var t :- ReadBsonType(reader);
              reader := t.1;
            }
            var n :- ReadName(reader);
            reader := n.1;
            if n.0 == conf.classDiscriminator {
              idx := currentIndex;
              currentIndex := currentIndex + 1;
            } else {
              return Failure(SerializationException(UnknownClassDiscriminator(conf.classDiscriminator)));
            }
          } else if currentIndex == 1 {
            idx := currentIndex;
            currentIndex := currentIndex + 1;
          } else {
            idx := DECODE_DONE;
          }
      }
      if idx >= 0 {
        if state == MAP_KEY {
          useMapper := None;
        } else {
          var e := ElementTypeAt(descriptor, idx);
          if e.None? {
            return Failure(IndexOutOfBounds(idx));
          }
          useMapper := MappingFor(conf.bsonTypeMappings, e.value);
        }
      }
      return Success(idx);
    }

    /** The DOCUMENT branch of decodeElementIndex. */
    method DocumentElementIndex(descriptor: Descriptor) returns (r: Result<int, Error>)
      modifies this
      ensures Committed(r, Model()) == old(DocumentIndex(Model(), descriptor))
    {
      if reader.state == TYPE {
        var t :- ReadBsonType(reader);
        reader := t.1;
      }
      if reader.state == NAME {
        var n :- ReadName(reader);
        reader := n.1;
        return Success(ElementIndex(descriptor, n.0));
      }
      return Success(DECODE_DONE);
    }

    method BeginStructure(descriptor: Descriptor) returns (r: Result<(), Error>)
      modifies this
      ensures Settled(r, Model()) == old(BeginStructureStep(Model(), conf, descriptor))
    {
      PreserveState();
      match descriptor.kind {
        case LIST =>
          r := BeginListStructure();
        case MAP =>
          if |descriptor.elements| == 0 {
            return Failure(NoSuchElement);
          }
          if descriptor.elements[0].elementType.kind == CLASS && conf.allowStructuredMapKeys {
            r := BeginListStructure();
          } else {
            state := MAP_KEY;
            var r1 :- ReadStartDocument(reader);
            reader := r1;
            r := Success(());
          }
        case SEALED =>
          r := BeginPolymorphicStructure();
        case OPEN =>
          r := BeginPolymorphicStructure();
        case CLASS =>
          r := BeginClassStructure();
        case OBJECT =>
          r := BeginClassStructure();
        case _ =>
          r := Success(());
      }
    }

    method BeginListStructure() returns (r: Result<(), Error>)
      modifies this
      ensures Settled(r, Model()) == old(BeginList(Model(), -1))
    {
      state := DecoderState.LIST;
      currentIndex := -1;
      var r1 :- ReadStartArray(reader);
      reader := r1;
      r := Success(());
    }

    /** The `is PolymorphicKind` branch of beginStructure. */
    method BeginPolymorphicStructure() returns (r: Result<(), Error>)
      modifies this
      ensures Settled(r, Model()) == old(BeginPolymorphic(Model()))
    {
      state := POLYMORPHIC;
      currentIndex := 0;
      var r1 :- ReadStartDocument(reader);
      reader := r1;
      r := Success(());
    }

    /** The `is StructureKind` branch of beginStructure. */
    method BeginClassStructure() returns (r: Result<(), Error>)
      modifies this
      ensures Settled(r, Model()) == old(BeginClass(Model()))
    {
      if state != POLYMORPHIC {
        var r1 :- ReadStartDocument(reader);
        reader := r1;
      }
      state := DecoderState.DOCUMENT;
      r := Success(());
    }

    method EndStructure(descriptor: Descriptor) returns (r: Result<(), Error>)
      modifies this
      ensures Settled(r, Model()) == old(EndStructureStep(Model(), descriptor))
    {
      var restored := RestoreState();
      if restored.Failure? {
        return Failure(restored.error);
      }
      match descriptor.kind {
        case LIST =>
          var r1 :- ReadEndArray(reader);
          reader := r1;
        case MAP =>
          if reader.state == END_OF_ARRAY {
            var r1 :- ReadEndArray(reader);
            reader := r1;
          } else {
            var r1 :- ReadEndDocument(reader);
            reader := r1;
          }
        case CLASS =>
          var r1 :- ReadEndDocument(reader);
          reader := r1;
        case OBJECT =>
          var r1 :- ReadEndDocument(reader);
          reader := r1;
        case _ =>
      }
      r := Success(());
    }

    method DecodeNotNullMark() returns (r: Result<bool, Error>)
      modifies this
      ensures Committed(r, Model()) == old(DecodeNotNullMarkStep(Model()))
    {
      if reader.currentBsonType == Some(NULL) {
        var v :- ReadValue(reader, NULL);
        reader := v.1;
        r := Success(false);
      } else {
        r := Success(true);
      }
    }

    method DecodeBoolean() returns (r: Result<bool, Error>)
      modifies this
      ensures Committed(r, Model()) == old(DecodeBooleanStep(Model(), platform, AtRoot))
    {
      var e :- DecodeBsonElement(Some(BsonType.BOOLEAN));
      match e {
        case FromName(s) => r := Success(platform.parseBoolean(s));
        case FromValue(BsonBoolean(b)) => r := Success(b);
        case _ => r := Misread();
      }
    }

    method DecodeByte() returns (r: Result<Int8, Error>)
      modifies this
      ensures Committed(r, Model()) == old(DecodeByteStep(Model(), platform))
    {
      var i :- DecodeInt();
      r := Success(ToByte(i));
    }

    method DecodeChar() returns (r: Result<char, Error>)
      modifies this
      ensures Committed(r, Model()) == old(DecodeCharStep(Model(), platform, AtRoot))
    {
      var s :- DecodeString();
      if |s| == 0 {
        return Failure(NoSuchElement);
      }
      r := Success(s[0]);
    }

    method DecodeDouble() returns (r: Result<Double, Error>)
      modifies this
      ensures Committed(r, Model()) == old(DecodeDoubleStep(Model(), platform, AtRoot))
    {
      var e :- DecodeBsonElement(Some(BsonType.DOUBLE));
      match e {
        case FromName(s) => r := Parsed(s, platform.parseDouble(s));
        case FromValue(BsonDouble(d)) => r := Success(d);
        case _ => r := Misread();
      }
    }

    /** `decodeBsonElement(reader::readInt32, String::toInt)` */
    method DecodeInt() returns (r: Result<Int32, Error>)
      modifies this
      ensures Committed(r, Model()) == old(DecodeInt32Step(Model(), platform, AtRoot))
    {
      var e :- DecodeBsonElement(Some(INT32));
      match e {
        case FromName(s) => r := Parsed(s, platform.parseInt(s));
        case FromValue(BsonInt32(i)) => r := Success(i);
        case _ => r := Misread();
      }
    }

    method DecodeLong() returns (r: Result<Int64, Error>)
      modifies this
      ensures Committed(r, Model()) == old(DecodeLongStep(Model(), platform))
    {
      if useMapper == Some(DATE) {
        r := DecodeBsonDateTimeToLong();
      } else {
        var e :- DecodeBsonElement(Some(INT64));
        match e {
          case FromName(s) => r := Parsed(s, platform.parseLong(s));
          case FromValue(BsonInt64(l)) => r := Success(l);
          case _ => r := Misread();
        }
      }
    }

    method DecodeNull() returns (r: Result<(), Error>)
      modifies this
      ensures Committed(r, Model()) == old(DecodeNullStep(Model(), AtRoot))
    {
      var _ :- DecodeBsonElement(None);
      r := Success(());
    }

    method DecodeShort() returns (r: Result<Int16, Error>)
      modifies this
      ensures Committed(r, Model()) == old(DecodeShortStep(Model(), platform))
    {
      var i :- DecodeInt();
      r := Success(ToShort(i));
    }

    method DecodeString() returns (r: Result<string, Error>)
      modifies this
      ensures Committed(r, Model()) == old(DecodeStringStep(Model(), platform, AtRoot))
    {
      match useMapper {
        case Some(UUID) =>
          r := DecodeUuid();
        case Some(OBJECT_ID) =>
          r := DecodeBsonObjectId();
        case Some(DATE) =>
          r := DecodeBsonDateTimeToString();
        case None =>
          var e :- DecodeBsonElement(Some(BsonType.STRING));
          match e {
            case FromName(s) => r := Success(s);
            case FromValue(BsonString(s)) => r := Success(s);
            case _ => r := Misread();
          }
      }
    }

    method DecodeEnum(enumDescriptor: Descriptor) returns (r: Result<int, Error>)
      modifies this
      ensures Committed(r, Model()) == old(DecodeEnumStep(Model(), platform, enumDescriptor, AtRoot))
    {
      var s :- DecodeString();
      r := Success(ElementIndex(enumDescriptor, s));
    }

    /** `decodeBsonElement(reader::readBinaryData) { BsonBinary(it.toByteArray()) }` */
    method DecodeBinary() returns (r: Result<Binary, Error>)
      modifies this
      ensures Committed(r, Model()) == old(DecodeBinaryStep(Model(), platform, AtRoot))
    {
      var e :- DecodeBsonElement(Some(BINARY));
      match e {
        case FromName(s) => r := Success(platform.textBinary(s));
        case FromValue(BsonBinary(b)) => r := Success(b);
        case _ => r := Misread();
      }
    }

    method DecodeByteArray() returns (r: Result<seq<bv8>, Error>)
      modifies this
      ensures Committed(r, Model()) == old(DecodeByteArrayStep(Model(), platform, AtRoot))
    {
      var binary :- DecodeBinary();
      r := Success(binary.data);
    }

    method DecodeBsonDateTimeToLong() returns (r: Result<Int64, Error>)
      modifies this
      ensures Committed(r, Model()) == old(DecodeDateTimeStep(Model(), platform, AtRoot))
    {
      var e :- DecodeBsonElement(Some(DATE_TIME));
      match e {
        case FromName(s) => r := Parsed(s, platform.parseLong(s));
        case FromValue(BsonDateTime(ms)) => r := Success(ms);
        case _ => r := Misread();
      }
    }

    method DecodeBsonDateTimeToString() returns (r: Result<string, Error>)
      modifies this
      ensures Committed(r, Model()) == old(DecodeDateTimeTextStep(Model(), platform, AtRoot))
    {
      var ms :- DecodeBsonDateTimeToLong();
      r := Success(platform.instantText(ms));
    }

    method DecodeBsonObjectId() returns (r: Result<string, Error>)
      modifies this
      ensures Committed(r, Model()) == old(DecodeObjectIdStep(Model(), platform, AtRoot))
    {
      var e :- DecodeBsonElement(Some(BsonType.OBJECT_ID));
      match e {
        case FromName(s) =>
          var oid :- Converted(platform.parseObjectId(s));
          r := Success(platform.objectIdHex(oid));
        case FromValue(BsonObjectId(oid)) => r := Success(platform.objectIdHex(oid));
        case _ => r := Misread();
      }
    }

    /** decodeUUID(), rendered with toString() as decodeString does. */
    method DecodeUuid() returns (r: Result<string, Error>)
      modifies this
      ensures Committed(r, Model()) == old(DecodeUuidStep(Model(), platform, AtRoot))
    {
      var binary :- DecodeBinary();
      var u :- Converted(platform.binaryUuid(binary));
      r := Success(platform.uuidText(u));
    }

    method DecodeBsonElement(read: Option<BsonType>) returns (r: Result<Source, Error>)
      modifies this
      ensures Committed(r, Model()) == old(DecodeBsonElementStep(Model(), read, AtRoot))
    {
      if reader.state == INITIAL {
        return Failure(AtRoot);
      }
      if state == MAP_KEY {
        state := MAP_VALUE;
        var n :- ReadName(reader);
        reader := n.1;
        return Success(FromName(n.0));
      }
      if state == MAP_VALUE {
        state := MAP_KEY;
      }
      match read {
        case None =>
          r := Success(NoValue);
        case Some(t) =>
          var v :- ReadValue(reader, t);
          reader := v.1;
          r := Success(FromValue(v.0));
      }
    }

    method PreserveState()
      modifies this
      ensures Model() == Preserve(old(Model()))
    {
      var currentState := if state == MAP_VALUE then MAP_KEY else state;
      stateStack := stateStack + [Frame(currentState, currentIndex)];
    }

    method RestoreState() returns (r: Result<(), Error>)
      modifies this
      ensures Settled(r, Model()) == old(Restore(Model()))
    {
      if |stateStack| == 0 {
        return Failure(NoSuchElement);
      }
      var top := stateStack[|stateStack| - 1];
      stateStack := stateStack[..|stateStack| - 1];
      state := top.state;
      currentIndex := top.index;
      r := Success(());
    }
  }
}
