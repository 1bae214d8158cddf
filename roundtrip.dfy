/** What the encoder writes, read back by the decoders: a map with string keys and plain
    values, encoded as the root of a document, is decoded by either decoder to the same
    keys and values, in order, and the document is consumed to its end. */
module RoundTrip {

  import opened Wrappers
  import opened Tokens
  import opened Errors
  import opened Descriptors
  import opened BsonConfig
  import opened Platform
  import opened BsonReader
  import opened DecoderCore
  import Encoder
  import Decoder
  import LegacyDecoder
  import ScopedEncoder

  /** The document of a map: its entries as the fields of one document. */
  function MapDocument(keys: seq<string>, values: seq<BsonValue>): (doc: seq<Token>)
    requires |keys| == |values|
    ensures |doc| == 2 * |keys| + 2 && doc[0] == StartDocument && doc[2 * |keys| + 1] == EndDocument
    ensures forall j :: 0 <= j < |keys| ==> doc[2 * j + 1] == Name(keys[j]) && doc[2 * j + 2] == Value(values[j])
  {
    [StartDocument] + Encoder.EntryTokens(keys, values) + [EndDocument]
  }

  /** A new encoder writes a map with string keys as exactly that document. */
  lemma EncodesMapDocument(conf: BsonConf, p: Platform, d: Descriptor, keys: seq<string>, values: seq<BsonValue>)
    requires Encoder.PlainMap(conf, d, keys, values)
    ensures Encoder.Run(Encoder.Start(), conf, p, Encoder.MapCalls(d, keys, values)).Success?
    ensures Encoder.Run(Encoder.Start(), conf, p, Encoder.MapCalls(d, keys, values)).value.log == MapDocument(keys, values)
  {
    Encoder.MapEncodes(Encoder.Start(), conf, p, d, keys, values);
  }

  /** What decoding a map document as the root comes to: beginStructure enters MAP_KEY
      on the first entry; the element loop hands out 0 and 1 by turns and reads each key
      from its name and each value from its token; endStructure then consumes the last
      token, leaving the reader DONE, and restores the decoder's first frame. */
  predicate ReadsBack(begun: Result<Machine, Error>, loop: Machine -> Result<Round, Error>, d: Descriptor,
                      keys: seq<string>, values: seq<BsonValue>, start: Machine, ended: Machine -> Result<Machine, Error>)
    requires |keys| == |values|
  {
    && begun.Success? && begun.value.state == MAP_KEY
    && begun.value.reader.pos == 1 && begun.value.reader.state == TYPE && begun.value.reader.depth == 1
    && begun.value.reader.tokens == MapDocument(keys, values)
    && begun.value.stack == [Frame(start.state, start.currentIndex)]
    && AlternatedMap(begun.value, keys, values, Loop(loop, begun.value, 2 * |keys| + 1))
    && var last := Loop(loop, begun.value, 2 * |keys| + 1).value.2;
       && ended(last).Success?
       && ended(last).value.reader.pos == |MapDocument(keys, values)|
       && ended(last).value.reader.state == DONE && ended(last).value.reader.depth == 0
       && ended(last).value.stack == [] && ended(last).value.state == start.state
  }

  /** The reader once beginStructure has entered a map document. */
  lemma EnteredMapDocument(keys: seq<string>, values: seq<BsonValue>)
    requires |keys| == |values|
    ensures ReadStartDocument(NewReader(MapDocument(keys, values)))
      == Success(Reader(MapDocument(keys, values), 1, TYPE, Some(BsonType.DOCUMENT), 1))
  {
  }

  /** The map's entries stand between the reader's position and the document's end. */
  lemma EntriesOfMapDocument(r: Reader, keys: seq<string>, values: seq<BsonValue>)
    requires |keys| == |values| && r.tokens == MapDocument(keys, values) && r.pos == 1
    ensures EntriesThenEnd(r, keys, values)
  {
    forall j | 0 <= j < |keys|
      ensures r.tokens[r.pos + 2 * j] == Name(keys[j]) && r.tokens[r.pos + 2 * j + 1] == Value(values[j])
    {
      assert r.pos + 2 * j == 2 * j + 1;
    }
  }

  /** endStructure at the closing token of a map document. */
  lemma LeavesMapDocument(m: Machine, d: Descriptor, keys: seq<string>, values: seq<BsonValue>)
    requires |keys| == |values| && d.kind == SerialKind.MAP && |m.stack| == 1
    requires m.reader.tokens == MapDocument(keys, values) && m.reader.pos == 2 * |keys| + 1
    requires m.reader.state == ReaderState.END_OF_DOCUMENT && m.reader.depth == 1
    ensures EndStructureStep(m, d).Success?
    ensures EndStructureStep(m, d).value.reader.pos == |MapDocument(keys, values)|
    ensures EndStructureStep(m, d).value.reader.state == DONE && EndStructureStep(m, d).value.reader.depth == 0
    ensures EndStructureStep(m, d).value.stack == [] && EndStructureStep(m, d).value.state == m.stack[0].state
  {
  }

  /** The current decoder reads back the map the encoder wrote. */
  lemma DecodesMapDocument(conf: BsonConf, d: Descriptor, keys: seq<string>, values: seq<BsonValue>)
    requires d.kind == SerialKind.MAP && |d.elements| == 2 && d.elements[0].elementType.kind != CLASS
    requires |keys| == |values|
    ensures var start := Decoder.Start(NewReader(MapDocument(keys, values)));
      ReadsBack(Decoder.BeginStructureStep(start, conf, d), Decoder.Rounds(conf, d), d, keys, values, start,
                m => EndStructureStep(m, d))
  {
    var start := Decoder.Start(NewReader(MapDocument(keys, values)));
    EnteredMapDocument(keys, values);
    var m1 := Decoder.BeginStructureStep(start, conf, d).value;
    EntriesOfMapDocument(m1.reader, keys, values);
    Decoder.MapAlternatesKeyAndValue(m1, conf, d, keys, values);
    var last := Loop(Decoder.Rounds(conf, d), m1, 2 * |keys| + 1).value.2;
    LeavesMapDocument(last, d, keys, values);
  }

  /** The earlier decoder reads it back the same way. */
  lemma LegacyDecodesMapDocument(conf: BsonConf, d: Descriptor, keys: seq<string>, values: seq<BsonValue>)
    requires d.kind == SerialKind.MAP && |d.elements| == 2 && d.elements[0].elementType.kind != CLASS
    requires |keys| == |values|
    ensures var start := LegacyDecoder.Start(NewReader(MapDocument(keys, values)));
      ReadsBack(LegacyDecoder.BeginStructureStep(start, conf, d), LegacyDecoder.Rounds(conf, d), d, keys, values, start,
                m => EndStructureStep(m, d))
  {
    var start := LegacyDecoder.Start(NewReader(MapDocument(keys, values)));
    EnteredMapDocument(keys, values);
    var m1 := LegacyDecoder.BeginStructureStep(start, conf, d).value;
    EntriesOfMapDocument(m1.reader, keys, values);
    LegacyDecoder.MapAlternatesKeyAndValue(m1, conf, d, keys, values);
    var last := Loop(LegacyDecoder.Rounds(conf, d), m1, 2 * |keys| + 1).value.2;
    LeavesMapDocument(last, d, keys, values);
  }

  /** Encoding a map with a new encoder and decoding the document with either decoder
      gives back the map's keys and values. */
  lemma MapRoundTrip(conf: BsonConf, p: Platform, d: Descriptor, keys: seq<string>, values: seq<BsonValue>)
    requires Encoder.PlainMap(conf, d, keys, values)
    ensures Encoder.Run(Encoder.Start(), conf, p, Encoder.MapCalls(d, keys, values)).Success?
    ensures var start := Decoder.Start(NewReader(Encoder.Run(Encoder.Start(), conf, p, Encoder.MapCalls(d, keys, values)).value.log));
      ReadsBack(Decoder.BeginStructureStep(start, conf, d), Decoder.Rounds(conf, d), d, keys, values, start,
                m => EndStructureStep(m, d))
    ensures var start := LegacyDecoder.Start(NewReader(Encoder.Run(Encoder.Start(), conf, p, Encoder.MapCalls(d, keys, values)).value.log));
      ReadsBack(LegacyDecoder.BeginStructureStep(start, conf, d), LegacyDecoder.Rounds(conf, d), d, keys, values, start,
                m => EndStructureStep(m, d))
  {
    EncodesMapDocument(conf, p, d, keys, values);
    DecodesMapDocument(conf, d, keys, values);
    LegacyDecodesMapDocument(conf, d, keys, values);
  }

  /** With states saved and restored, a new encoder writes a map with string keys as the
      same document and ends back in ROOT with nothing saved. */
  lemma ScopedEncodesMapDocument(conf: BsonConf, p: Platform, d: Descriptor, keys: seq<string>, values: seq<BsonValue>)
    requires Encoder.PlainMap(conf, d, keys, values)
    ensures var r := ScopedEncoder.ScopedRun(ScopedEncoder.Scoped(Encoder.Start(), []), conf, p, Encoder.MapCalls(d, keys, values));
      && r.Success? && r.value.enc.log == MapDocument(keys, values)
      && r.value.enc.state == Encoder.ROOT && r.value.saved == []
  {
    var s := ScopedEncoder.Scoped(Encoder.Start(), []);
    ScopedEncoder.ScopedMapEncodes(s, conf, p, d, keys, values);
    var doc := [StartDocument] + Encoder.EntryTokens(keys, values) + [EndDocument];
    assert s.enc.log == [];
    assert s.enc.log + [StartDocument] + Encoder.EntryTokens(keys, values) + [EndDocument] == doc;
    assert doc == MapDocument(keys, values);
  }

  /** With states saved and restored, the encoder writes the same document, ends back in
      ROOT with nothing saved, and the current decoder reads the map back from it. */
  lemma ScopedMapRoundTrip(conf: BsonConf, p: Platform, d: Descriptor, keys: seq<string>, values: seq<BsonValue>)
    requires Encoder.PlainMap(conf, d, keys, values)
    ensures var r := ScopedEncoder.ScopedRun(ScopedEncoder.Scoped(Encoder.Start(), []), conf, p, Encoder.MapCalls(d, keys, values));
      && r.Success? && r.value.enc.log == MapDocument(keys, values)
      && r.value.enc.state == Encoder.ROOT && r.value.saved == []
    ensures var start := Decoder.Start(NewReader(MapDocument(keys, values)));
      ReadsBack(Decoder.BeginStructureStep(start, conf, d), Decoder.Rounds(conf, d), d, keys, values, start,
                m => EndStructureStep(m, d))
  {
    ScopedEncodesMapDocument(conf, p, d, keys, values);
    DecodesMapDocument(conf, d, keys, values);
  }

  /** No two elements of a descriptor share a name, as in every class descriptor the
      serialization plugin generates. */
  predicate DistinctNames(d: Descriptor) {
    forall i, j :: 0 <= i < j < |d.elements| ==> d.elements[i].name != d.elements[j].name
  }

  /** The names of the first `n` elements of a descriptor, in declaration order. */
  function FieldNames(d: Descriptor, n: nat): (names: seq<string>)
    requires n <= |d.elements|
    ensures |names| == n
    ensures forall j :: 0 <= j < n ==> names[j] == d.elements[j].name
  {
    seq(n, j requires 0 <= j < n => d.elements[j].name)
  }

  /** With distinct names, the name of element `j` has index `j`. */
  lemma NameIndexesItself(d: Descriptor, j: int)
    requires DistinctNames(d) && 0 <= j < |d.elements|
    ensures ElementIndex(d, d.elements[j].name) == j
  {
    var i := ElementIndex(d, d.elements[j].name);
    assert i != UNKNOWN_NAME;
    assert d.elements[i].name == d.elements[j].name;
  }

  /** The fields of a class, written in declaration order, are the entries of a map from
      their names. */
  lemma FieldsAreEntries(d: Descriptor, values: seq<BsonValue>)
    requires |values| <= |d.elements|
    ensures Encoder.FieldTokens(d, values) == Encoder.EntryTokens(FieldNames(d, |values|), values)
  {
    var names := FieldNames(d, |values|);
    var f := Encoder.FieldTokens(d, values);
    var e := Encoder.EntryTokens(names, values);
    assert |f| == |e|;
    forall k | 0 <= k < |f|
      ensures f[k] == e[k]
    {
      var j := k / 2;
      if k % 2 == 0 {
        assert k == 2 * j;
        assert f[2 * j] == Name(d.elements[j].name) && e[2 * j] == Name(names[j]);
      } else {
        assert k == 2 * j + 1;
        assert f[2 * j + 1] == Value(values[j]) && e[2 * j + 1] == Value(values[j]);
      }
    }
  }

  /** A new encoder writes a class with plain, unmapped fields as the document of its
      fields in declaration order: the same tokens as a map from its field names. */
  lemma EncodesClassDocument(conf: BsonConf, p: Platform, d: Descriptor, values: seq<BsonValue>)
    requires (d.kind == SerialKind.CLASS || d.kind == SerialKind.OBJECT) && Encoder.PlainFields(conf, d, values)
    ensures Encoder.Run(Encoder.Start(), conf, p, Encoder.ClassCalls(d, values)).Success?
    ensures Encoder.Run(Encoder.Start(), conf, p, Encoder.ClassCalls(d, values)).value.log == MapDocument(FieldNames(d, |values|), values)
  {
    Encoder.ClassEncodes(Encoder.Start(), conf, p, d, values);
    FieldsAreEntries(d, values);
    assert Encoder.Start().log == [];
    assert Encoder.Start().log + [StartDocument] + Encoder.FieldTokens(d, values) + [EndDocument]
      == [StartDocument] + Encoder.EntryTokens(FieldNames(d, |values|), values) + [EndDocument];
  }

  /** What decoding a class document as the root comes to: beginStructure enters
      DOCUMENT on the first field; the element loop hands out, field by field, the index
      of its name and reads its value (FieldsRead); endStructure then consumes the last
      token, leaving the reader DONE, and restores the decoder's first frame. */
  predicate ClassReadsBack(begun: Result<Machine, Error>, loop: Machine -> Result<Round, Error>, d: Descriptor,
                           names: seq<string>, values: seq<BsonValue>, start: Machine, ended: Machine -> Result<Machine, Error>)
    requires |names| == |values|
  {
    && begun.Success? && begun.value.state == DecoderState.DOCUMENT
    && begun.value.reader.pos == 1 && begun.value.reader.state == TYPE && begun.value.reader.depth == 1
    && begun.value.reader.tokens == MapDocument(names, values)
    && begun.value.stack == [Frame(start.state, start.currentIndex)]
    && FieldsRead(begun.value, d, names, values, Loop(loop, begun.value, |names| + 1))
    && var last := Loop(loop, begun.value, |names| + 1).value.2;
       && ended(last).Success?
       && ended(last).value.reader.pos == |MapDocument(names, values)|
       && ended(last).value.reader.state == DONE && ended(last).value.reader.depth == 0
       && ended(last).value.stack == [] && ended(last).value.state == start.state
  }

  /** endStructure at the closing token of a class document. */
  lemma LeavesClassDocument(m: Machine, d: Descriptor, names: seq<string>, values: seq<BsonValue>)
    requires |names| == |values| && (d.kind == SerialKind.CLASS || d.kind == SerialKind.OBJECT) && |m.stack| == 1
    requires m.reader.tokens == MapDocument(names, values) && m.reader.pos == 2 * |names| + 1
    requires m.reader.state == ReaderState.END_OF_DOCUMENT && m.reader.depth == 1
    ensures EndStructureStep(m, d).Success?
    ensures EndStructureStep(m, d).value.reader.pos == |MapDocument(names, values)|
    ensures EndStructureStep(m, d).value.reader.state == DONE && EndStructureStep(m, d).value.reader.depth == 0
    ensures EndStructureStep(m, d).value.stack == [] && EndStructureStep(m, d).value.state == m.stack[0].state
  {
  }

  /** The current decoder reads a class document back field by field, whatever the order
      of the fields and whether or not the class declares them. */
  lemma DecodesClassDocument(conf: BsonConf, d: Descriptor, names: seq<string>, values: seq<BsonValue>)
    requires d.kind == SerialKind.CLASS || d.kind == SerialKind.OBJECT
    requires |names| == |values|
    ensures var start := Decoder.Start(NewReader(MapDocument(names, values)));
      ClassReadsBack(Decoder.BeginStructureStep(start, conf, d), Decoder.Rounds(conf, d), d, names, values, start,
                     m => EndStructureStep(m, d))
  {
    var start := Decoder.Start(NewReader(MapDocument(names, values)));
    EnteredMapDocument(names, values);
    var m1 := Decoder.BeginStructureStep(start, conf, d).value;
    EntriesOfMapDocument(m1.reader, names, values);
    Decoder.DocumentReadsFields(m1, conf, d, names, values);
    var last := Loop(Decoder.Rounds(conf, d), m1, |names| + 1).value.2;
    LeavesClassDocument(last, d, names, values);
  }

  /** The earlier decoder reads it back the same way. */
  lemma LegacyDecodesClassDocument(conf: BsonConf, d: Descriptor, names: seq<string>, values: seq<BsonValue>)
    requires d.kind == SerialKind.CLASS || d.kind == SerialKind.OBJECT
    requires |names| == |values|
    ensures var start := LegacyDecoder.Start(NewReader(MapDocument(names, values)));
      ClassReadsBack(LegacyDecoder.BeginStructureStep(start, conf, d), LegacyDecoder.Rounds(conf, d), d, names, values, start,
                     m => EndStructureStep(m, d))
  {
    var start := LegacyDecoder.Start(NewReader(MapDocument(names, values)));
    EnteredMapDocument(names, values);
    var m1 := LegacyDecoder.BeginStructureStep(start, conf, d).value;
    EntriesOfMapDocument(m1.reader, names, values);
    LegacyDecoder.DocumentReadsFields(m1, conf, d, names, values);
    var last := Loop(LegacyDecoder.Rounds(conf, d), m1, |names| + 1).value.2;
    LeavesClassDocument(last, d, names, values);
  }

  /** Fields named after the class's elements `order[0]`, `order[1]`, ..., in that order,
      are handed out as exactly those indices when the names are distinct. */
  lemma DeclaredFieldsIndexed(d: Descriptor, order: seq<int>, names: seq<string>, values: seq<BsonValue>, m: Machine,
                              r: Result<(seq<int>, seq<Source>, Machine), Error>)
    requires DistinctNames(d) && |order| == |names| == |values|
    requires forall j :: 0 <= j < |order| ==> 0 <= order[j] < |d.elements| && names[j] == d.elements[order[j]].name
    requires FieldsRead(m, d, names, values, r)
    ensures r.value.0 == order + [DECODE_DONE]
  {
    forall j | 0 <= j < |order|
      ensures r.value.0[j] == order[j]
    {
      NameIndexesItself(d, order[j]);
    }
  }

  /** The element loop, run from the decoder beginStructure left, hands out `indices`. */
  predicate HandsOut(begun: Result<Machine, Error>, loop: Machine -> Result<Round, Error>, rounds: nat, indices: seq<int>) {
    && begun.Success?
    && Loop(loop, begun.value, rounds).Success?
    && Loop(loop, begun.value, rounds).value.0 == indices
  }

  /** The names of the class's elements `order[0]`, `order[1]`, ... */
  function OrderedNames(d: Descriptor, order: seq<int>): (names: seq<string>)
    requires forall j :: 0 <= j < |order| ==> 0 <= order[j] < |d.elements|
    ensures |names| == |order|
    ensures forall j :: 0 <= j < |order| ==> names[j] == d.elements[order[j]].name
  {
    seq(|order|, j requires 0 <= j < |order| => d.elements[order[j]].name)
  }

  /** A class document whose fields are the class's elements in any order: both decoders
      hand out each field's own index, in the order of the document, and read its value. */
  lemma FieldsInAnyOrder(conf: BsonConf, d: Descriptor, order: seq<int>, values: seq<BsonValue>)
    requires d.kind == SerialKind.CLASS || d.kind == SerialKind.OBJECT
    requires DistinctNames(d) && |order| == |values|
    requires forall j :: 0 <= j < |order| ==> 0 <= order[j] < |d.elements|
    ensures var names := OrderedNames(d, order);
      var start := Decoder.Start(NewReader(MapDocument(names, values)));
      ClassReadsBack(Decoder.BeginStructureStep(start, conf, d), Decoder.Rounds(conf, d), d, names, values, start, m => EndStructureStep(m, d))
      && HandsOut(Decoder.BeginStructureStep(start, conf, d), Decoder.Rounds(conf, d), |names| + 1, order + [DECODE_DONE])
    ensures var names := OrderedNames(d, order);
      var start := LegacyDecoder.Start(NewReader(MapDocument(names, values)));
      ClassReadsBack(LegacyDecoder.BeginStructureStep(start, conf, d), LegacyDecoder.Rounds(conf, d), d, names, values, start, m => EndStructureStep(m, d))
      && HandsOut(LegacyDecoder.BeginStructureStep(start, conf, d), LegacyDecoder.Rounds(conf, d), |names| + 1, order + [DECODE_DONE])
  {
    var names := OrderedNames(d, order);
    DecodesClassDocument(conf, d, names, values);
    LegacyDecodesClassDocument(conf, d, names, values);
    var start := Decoder.Start(NewReader(MapDocument(names, values)));
    var begun := Decoder.BeginStructureStep(start, conf, d).value;
    DeclaredFieldsIndexed(d, order, names, values, begun, Loop(Decoder.Rounds(conf, d), begun, |names| + 1));
    var lstart := LegacyDecoder.Start(NewReader(MapDocument(names, values)));
    var lbegun := LegacyDecoder.BeginStructureStep(lstart, conf, d).value;
    DeclaredFieldsIndexed(d, order, names, values, lbegun, Loop(LegacyDecoder.Rounds(conf, d), lbegun, |names| + 1));
  }

  /** Encoding a class with a new encoder and decoding the document with either decoder
      hands out its element indices 0, 1, ... in declaration order and gives back each
      field's value. */
  lemma ClassRoundTrip(conf: BsonConf, p: Platform, d: Descriptor, values: seq<BsonValue>)
    requires (d.kind == SerialKind.CLASS || d.kind == SerialKind.OBJECT) && Encoder.PlainFields(conf, d, values)
    requires DistinctNames(d)
    ensures Encoder.Run(Encoder.Start(), conf, p, Encoder.ClassCalls(d, values)).Success?
    ensures Encoder.Run(Encoder.Start(), conf, p, Encoder.ClassCalls(d, values)).value.log == MapDocument(FieldNames(d, |values|), values)
    ensures var start := Decoder.Start(NewReader(MapDocument(FieldNames(d, |values|), values)));
      ClassReadsBack(Decoder.BeginStructureStep(start, conf, d), Decoder.Rounds(conf, d), d, FieldNames(d, |values|), values,
                     start, m => EndStructureStep(m, d))
      && HandsOut(Decoder.BeginStructureStep(start, conf, d), Decoder.Rounds(conf, d), |values| + 1, Count(0, |values|) + [DECODE_DONE])
    ensures var start := LegacyDecoder.Start(NewReader(MapDocument(FieldNames(d, |values|), values)));
      ClassReadsBack(LegacyDecoder.BeginStructureStep(start, conf, d), LegacyDecoder.Rounds(conf, d), d, FieldNames(d, |values|), values,
                     start, m => EndStructureStep(m, d))
      && HandsOut(LegacyDecoder.BeginStructureStep(start, conf, d), LegacyDecoder.Rounds(conf, d), |values| + 1, Count(0, |values|) + [DECODE_DONE])
  {
    EncodesClassDocument(conf, p, d, values);
    var order := Count(0, |values|);
    FieldsInAnyOrder(conf, d, order, values);
    assert OrderedNames(d, order) == FieldNames(d, |values|);
  }

  /** The token encodeNull appends is read back as a null: where the decoder has seen it
      as the current value, decodeNotNullMark answers false and consumes exactly it. */
  lemma NullRoundTrip(em: Encoder.Machine, dm: Machine)
    requires dm.reader.state == VALUE && dm.reader.currentBsonType == Some(NULL)
    requires dm.reader.pos < |dm.reader.tokens|
    requires dm.reader.tokens[dm.reader.pos] == Encoder.EncodeNullStep(em).log[|em.log|]
    ensures Encoder.EncodeNullStep(em).log == em.log + [Value(BsonNull)]
    ensures DecodeNotNullMarkStep(dm) ==
      Success((false, dm.(reader := dm.reader.(pos := dm.reader.pos + 1, state := NextState(dm.reader.depth)))))
  {
    assert Encoder.EncodeNullStep(em).log[|em.log|] == Value(BsonNull);
  }

  /** An enum entry written by encodeEnum as a string value is read back by decodeEnum
      as its own index, when the entries have distinct names. */
  lemma EnumRoundTrip(em: Encoder.Machine, p: Platform, e: Descriptor, i: int, dm: Machine, atRoot: Error)
    requires DistinctNames(e) && 0 <= i < |e.elements|
    requires em.state != Encoder.ROOT && em.state != Encoder.MAP_KEY && em.useMapper == None
    requires dm.state != MAP_KEY && dm.useMapper == None
    requires dm.reader.state == VALUE && dm.reader.currentBsonType == Some(BsonType.STRING)
    requires dm.reader.pos < |dm.reader.tokens| && dm.reader.tokens[dm.reader.pos] == Value(BsonString(e.elements[i].name))
    ensures Encoder.EncodeEnumStep(em, p, e, i) == Success(Encoder.Emit(em, Value(BsonString(e.elements[i].name))))
    ensures DecodeEnumStep(dm, p, e, atRoot) ==
      Success((i, dm.(state := if dm.state == MAP_VALUE then MAP_KEY else dm.state,
                      reader := dm.reader.(pos := dm.reader.pos + 1, state := NextState(dm.reader.depth)))))
  {
    ReadsValueToken(dm, BsonString(e.elements[i].name), atRoot);
    NameIndexesItself(e, i);
  }
}
