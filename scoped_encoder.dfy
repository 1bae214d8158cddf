/** The encoder with the enclosing state restored at the end of every map and every
    polymorphic value, as the decoders do with their frame stacks. BsonEncoder keeps a
    single state tag: a structure nested in a map leaves that tag as the nested structure
    set it, and the enclosing map then toggles or closes from the wrong state. */
module ScopedEncoder {

  import opened Wrappers
  import opened Tokens
  import opened Errors
  import opened Descriptors
  import opened BsonConfig
  import opened Platform
  import opened Encoder

  /** The encoder's fields with the states saved by the maps and polymorphic values still
      open, innermost last. */
  datatype Scoped = Scoped(enc: Machine, saved: seq<State>)

  /** beginStructure of these kinds sets the state tag, so their endStructure restores it. */
  predicate Scoping(k: SerialKind) {
    k == SerialKind.MAP || IsPolymorphicKind(k)
  }

  /** One call. beginStructure and endStructure write what BsonEncoder writes, and around
      a map or a polymorphic value the state is saved and then restored; closing a
      structure that was never opened is refused, as restoreState does in the decoders. */
  function ScopedStep(s: Scoped, conf: BsonConf, p: Platform, c: Call): (r: Result<Scoped, Error>)
    ensures r.Success? ==> Step(s.enc, conf, p, c).Success? && r.value.enc.log == Step(s.enc, conf, p, c).value.log
    ensures r.Success? && c.Begin? && Scoping(c.d.kind) ==> r.value.saved == s.saved + [s.enc.state]
    ensures r.Success? && c.End? && Scoping(c.d.kind) ==>
      |s.saved| > 0 && r.value.saved == s.saved[..|s.saved| - 1] && r.value.enc.state == s.saved[|s.saved| - 1]
    ensures r.Success? && !((c.Begin? || c.End?) && Scoping(c.d.kind)) ==>
      r.value == Scoped(Step(s.enc, conf, p, c).value, s.saved)
  {
    match c
    case Begin(d) =>
      var e :- BeginStructureStep(s.enc, conf, d);
      Success(Scoped(e, if Scoping(d.kind) then s.saved + [s.enc.state] else s.saved))
    case End(d) =>
      if Scoping(d.kind) && |s.saved| == 0 then Failure(NoSuchElement)
      else
        var e :- EndStructureStep(s.enc, d);
        if Scoping(d.kind) then Success(Scoped(e.(state := s.saved[|s.saved| - 1]), s.saved[..|s.saved| - 1]))
        else Success(Scoped(e, s.saved))
    case _ =>
      var e :- Step(s.enc, conf, p, c);
      Success(Scoped(e, s.saved))
  }

  /** A sequence of calls, stopped by the first exception. */
  function ScopedRun(s: Scoped, conf: BsonConf, p: Platform, calls: seq<Call>): Result<Scoped, Error>
    decreases |calls|
  {
    if |calls| == 0 then Success(s)
    else
      var s1 :- ScopedRun(s, conf, p, calls[..|calls| - 1]);
      ScopedStep(s1, conf, p, calls[|calls| - 1])
  }

  /** Maps and polymorphic values opened minus those closed. */
  function ScopeDepth(calls: seq<Call>): int
    decreases |calls|
  {
    if |calls| == 0 then 0
    else
      var c := calls[|calls| - 1];
      ScopeDepth(calls[..|calls| - 1])
        + (if c.Begin? && Scoping(c.d.kind) then 1 else if c.End? && Scoping(c.d.kind) then -1 else 0)
  }

  /** No prefix closes more maps and polymorphic values than it opened. */
  predicate NeverUnderflows(calls: seq<Call>) {
    forall k :: 0 <= k <= |calls| ==> ScopeDepth(calls[..k]) >= 0
  }

  /** A run that never closes more than it opened keeps the saved states it found below
      one new state per structure still open. */
  lemma {:induction false} RunKeepsOuterScopes(s: Scoped, conf: BsonConf, p: Platform, calls: seq<Call>)
    requires NeverUnderflows(calls)
    requires ScopedRun(s, conf, p, calls).Success?
    ensures ScopeDepth(calls) >= 0
    ensures |ScopedRun(s, conf, p, calls).value.saved| == |s.saved| + ScopeDepth(calls)
    ensures ScopedRun(s, conf, p, calls).value.saved[..|s.saved|] == s.saved
    decreases |calls|
  {
    assert calls[..|calls|] == calls;
    if |calls| > 0 {
      var init := calls[..|calls| - 1];
      assert NeverUnderflows(init) by {
        forall k | 0 <= k <= |init| ensures ScopeDepth(init[..k]) >= 0 {
          assert init[..k] == calls[..k];
        }
      }
      RunKeepsOuterScopes(s, conf, p, init);
      var s1 := ScopedRun(s, conf, p, init).value;
      var c := calls[|calls| - 1];
      assert ScopedRun(s, conf, p, calls) == ScopedStep(s1, conf, p, c);
      if c.End? && Scoping(c.d.kind) {
        assert s1.saved[..|s1.saved| - 1][..|s.saved|] == s1.saved[..|s.saved|];
      } else if c.Begin? && Scoping(c.d.kind) {
        assert (s1.saved + [s1.enc.state])[..|s.saved|] == s1.saved[..|s.saved|];
      }
    }
  }

  /** Running two call sequences back to back is running the first, then the second. */
  lemma {:induction false} ScopedRunSplit(s: Scoped, conf: BsonConf, p: Platform, first: seq<Call>, second: seq<Call>)
    ensures ScopedRun(s, conf, p, first + second) ==
      match ScopedRun(s, conf, p, first)
      case Success(s1) => ScopedRun(s1, conf, p, second)
      case Failure(e) => Failure(e)
    decreases |second|
  {
    if |second| == 0 {
      assert first + second == first;
    } else {
      var init := second[..|second| - 1];
      assert (first + second)[..|first + second| - 1] == first + init;
      assert (first + second)[|first + second| - 1] == second[|second| - 1];
      ScopedRunSplit(s, conf, p, first, init);
    }
  }

  /** A map or a polymorphic value, opened, filled by balanced calls and closed, gives the
      encoder back the state it was in and the states it had saved. */
  lemma BalancedScopeRestores(s: Scoped, conf: BsonConf, p: Platform, open: Descriptor, inner: seq<Call>, close: Descriptor)
    requires Scoping(open.kind) && Scoping(close.kind)
    requires NeverUnderflows(inner) && ScopeDepth(inner) == 0
    requires ScopedRun(s, conf, p, [Begin(open)] + inner + [End(close)]).Success?
    ensures ScopedRun(s, conf, p, [Begin(open)] + inner + [End(close)]).value.enc.state == s.enc.state
    ensures ScopedRun(s, conf, p, [Begin(open)] + inner + [End(close)]).value.saved == s.saved
  {
    var calls := [Begin(open)] + inner + [End(close)];
    assert calls[..|calls| - 1] == [Begin(open)] + inner;
    assert calls[|calls| - 1] == End(close);
    assert ScopedRun(s, conf, p, [Begin(open)]) == ScopedStep(s, conf, p, Begin(open)) by {
      assert [Begin(open)][..0] == [];
    }
    ScopedRunSplit(s, conf, p, [Begin(open)], inner);
    var s1 := ScopedStep(s, conf, p, Begin(open)).value;
    RunKeepsOuterScopes(s1, conf, p, inner);
    var s2 := ScopedRun(s1, conf, p, inner).value;
    assert s2.saved == s.saved + [s.enc.state] by {
      assert |s2.saved| == |s1.saved|;
      assert s2.saved == s2.saved[..|s1.saved|];
    }
  }

  /** The encoder's own run, its saved states kept alongside. */
  function Lifted(r: Result<Machine, Error>, saved: seq<State>): Result<Scoped, Error> {
    match r
    case Success(m) => Success(Scoped(m, saved))
    case Failure(e) => Failure(e)
  }

  /** Where no structure begins or ends, saving states changes nothing. */
  lemma {:induction false} FlatCallsAgree(s: Scoped, conf: BsonConf, p: Platform, calls: seq<Call>)
    requires forall k :: 0 <= k < |calls| ==> !calls[k].Begin? && !calls[k].End?
    ensures ScopedRun(s, conf, p, calls) == Lifted(Run(s.enc, conf, p, calls), s.saved)
    decreases |calls|
  {
    if |calls| > 0 {
      var init := calls[..|calls| - 1];
      var c := calls[|calls| - 1];
      FlatCallsAgree(s, conf, p, init);
      RunAppend(s.enc, conf, p, init, [c]);
      assert init + [c] == calls;
      match Run(s.enc, conf, p, init)
      case Success(m1) =>
        assert Run(m1, conf, p, [c]) == Step(m1, conf, p, c) by {
          match Step(m1, conf, p, c)
          case Success(m2) => assert Run(m2, conf, p, []) == Success(m2);
          case Failure(_) =>
        }
      case Failure(_) =>
    }
  }

  /** A map with string keys is written as the same document with states saved, and
      the state it began in is given back at its end. */
  lemma ScopedMapEncodes(s: Scoped, conf: BsonConf, p: Platform, d: Descriptor, keys: seq<string>, values: seq<BsonValue>)
    requires PlainMap(conf, d, keys, values)
    ensures ScopedRun(s, conf, p, MapCalls(d, keys, values)).Success?
    ensures ScopedRun(s, conf, p, MapCalls(d, keys, values)).value.enc.log
      == s.enc.log + [StartDocument] + EntryTokens(keys, values) + [EndDocument]
    ensures ScopedRun(s, conf, p, MapCalls(d, keys, values)).value.enc.state == s.enc.state
    ensures ScopedRun(s, conf, p, MapCalls(d, keys, values)).value.saved == s.saved
  {
    var entries := EntryCalls(d, keys, values);
    EntryCallsFlat(d, keys, values);
    var s1 := Scoped(Emit(s.enc, StartDocument).(state := State.MAP), s.saved + [s.enc.state]);
    assert ScopedRun(s, conf, p, [Begin(d)]) == Success(s1) by {
      assert [Begin(d)][..0] == [];
    }
    ScopedRunSplit(s, conf, p, [Begin(d)], entries);
    FlatCallsAgree(s1, conf, p, entries);
    EntriesWritten(s1.enc, conf, p, d, keys, values);
    var s2 := ScopedRun(s1, conf, p, entries).value;
    ScopedRunSplit(s, conf, p, [Begin(d)] + entries, [End(d)]);
    assert ScopedRun(s2, conf, p, [End(d)]) == ScopedStep(s2, conf, p, End(d)) by {
      assert [End(d)][..0] == [];
    }
  }

  /** The entries of a map open and close nothing. */
  lemma {:induction false} EntryCallsFlat(d: Descriptor, keys: seq<string>, values: seq<BsonValue>)
    requires |keys| == |values|
    ensures forall k :: 0 <= k < |EntryCalls(d, keys, values)| ==>
      !EntryCalls(d, keys, values)[k].Begin? && !EntryCalls(d, keys, values)[k].End?
    decreases |values|
  {
    if |values| > 0 {
      var n := |values| - 1;
      EntryCallsFlat(d, keys[..n], values[..n]);
    }
  }

  /** A map of strings whose values are maps with class keys, read as structured maps:
      Map<String, Map<K, Long>> with allowStructuredMapKeys. */
  function StringType(): ElementType {
    ElementType(Primitive(PrimitiveKind.STRING), "kotlin.String", false)
  }

  function StructuredMap(): Descriptor {
    Descriptor(SerialKind.MAP, "kotlin.collections.LinkedHashMap",
      [Element("key", ElementType(CLASS, "K", false)), Element("value", ElementType(Primitive(LONG), "kotlin.Long", false))])
  }

  function OuterMap(): Descriptor {
    Descriptor(SerialKind.MAP, "kotlin.collections.LinkedHashMap",
      [Element("key", StringType()), Element("value", ElementType(SerialKind.MAP, "kotlin.collections.LinkedHashMap", false))])
  }

  function StructuredKeys(): BsonConf {
    DefaultConf().(allowStructuredMapKeys := true)
  }

  /** The calls that encode {"k": {}}: one entry whose value is an empty structured map. */
  function NestedCalls(): seq<Call> {
    [Begin(OuterMap()), ElementAt(OuterMap(), 0), Encode(AsString("k")), ElementAt(OuterMap(), 1),
     Begin(StructuredMap()), End(StructuredMap()), End(OuterMap())]
  }

  /** The encoder before each call of NestedCalls, as BsonEncoder runs them. */
  function AsWrittenBefore(i: nat): Machine
    requires i <= 7
  {
    match i
    case 0 => Start()
    case 1 => Machine(State.MAP, None, [StartDocument])
    case 2 => Machine(MAP_KEY, None, [StartDocument])
    case 3 => Machine(MAP_KEY, None, [StartDocument, Name("k")])
    case 4 => Machine(MAP_VALUE, None, [StartDocument, Name("k")])
    case 5 => Machine(STRUCTURED_MAP, None, [StartDocument, Name("k"), StartArray])
    case 6 => Machine(STRUCTURED_MAP, None, [StartDocument, Name("k"), StartArray, EndArray])
    case _ => Machine(STRUCTURED_MAP, None, [StartDocument, Name("k"), StartArray, EndArray, EndArray])
  }

  /** Each call of NestedCalls, one at a time. */
  lemma AsWrittenSteps(p: Platform, i: nat)
    requires i < 7
    ensures Step(AsWrittenBefore(i), StructuredKeys(), p, NestedCalls()[i]) == Success(AsWrittenBefore(i + 1))
  {
    match i
    case 0 =>
    case 1 =>
    case 2 =>
      assert NestedCalls()[2] == Encode(AsString("k"));
      var m2 := AsWrittenBefore(2);
      assert m2 == Machine(MAP_KEY, None, [StartDocument]);
      assert m2.state == MAP_KEY;
      var e := EncodeBsonElementStep(m2, BsonString("k"), "k");
      assert e.Success?;
      assert e.value == Emit(m2, Name("k"));
      assert Emit(m2, Name("k")).log == [StartDocument, Name("k")];
      assert e == Success(AsWrittenBefore(3));
    case 3 =>
    case 4 =>
      assert StructuredKeys().allowStructuredMapKeys;
      assert StructuredMap().elements[0].elementType.kind == CLASS;
      assert Emit(AsWrittenBefore(4), StartArray).(state := STRUCTURED_MAP) == AsWrittenBefore(5);
    case 5 =>
      assert Emit(AsWrittenBefore(5), EndArray) == AsWrittenBefore(6);
    case 6 =>
      assert Emit(AsWrittenBefore(6), EndArray) == AsWrittenBefore(7);
  }

  /** The calls of NestedCalls from the `i`-th on. */
  lemma {:induction false} AsWrittenSuffix(p: Platform, i: nat)
    requires i <= 7
    ensures Run(AsWrittenBefore(i), StructuredKeys(), p, NestedCalls()[i..]) == Success(AsWrittenBefore(7))
    decreases 7 - i
  {
    if i < 7 {
      AsWrittenSuffix(p, i + 1);
      AsWrittenSteps(p, i);
      assert NestedCalls()[i..][1..] == NestedCalls()[i + 1..];
    }
  }

  /** BsonEncoder closes the outer document of {"k": {}} with the inner map's EndArray:
      the structured map has left STRUCTURED_MAP behind it. */
  lemma NestedMapClosedAsArray(p: Platform)
    ensures Run(Start(), StructuredKeys(), p, NestedCalls())
      == Success(Machine(STRUCTURED_MAP, None, [StartDocument, Name("k"), StartArray, EndArray, EndArray]))
  {
    assert AsWrittenBefore(0) == Start();
    assert AsWrittenBefore(7) == Machine(STRUCTURED_MAP, None, [StartDocument, Name("k"), StartArray, EndArray, EndArray]);
    var calls := NestedCalls();
    assert calls[0..] == calls;
    AsWrittenSuffix(p, 0);
  }

  /** The encoder with saved states before each call of NestedCalls. */
  function ScopedBefore(i: nat): Scoped
    requires i <= 7
  {
    match i
    case 0 => Scoped(Start(), [])
    case 1 => Scoped(Machine(State.MAP, None, [StartDocument]), [ROOT])
    case 2 => Scoped(Machine(MAP_KEY, None, [StartDocument]), [ROOT])
    case 3 => Scoped(Machine(MAP_KEY, None, [StartDocument, Name("k")]), [ROOT])
    case 4 => Scoped(Machine(MAP_VALUE, None, [StartDocument, Name("k")]), [ROOT])
    case 5 => Scoped(Machine(STRUCTURED_MAP, None, [StartDocument, Name("k"), StartArray]), [ROOT, MAP_VALUE])
    case 6 => Scoped(Machine(MAP_VALUE, None, [StartDocument, Name("k"), StartArray, EndArray]), [ROOT])
    case _ => Scoped(Machine(ROOT, None, [StartDocument, Name("k"), StartArray, EndArray, EndDocument]), [])
  }

  /** Each call of NestedCalls, one at a time, with states saved. */
  lemma ScopedSteps(p: Platform, i: nat)
    requires i < 7
    ensures ScopedStep(ScopedBefore(i), StructuredKeys(), p, NestedCalls()[i]) == Success(ScopedBefore(i + 1))
  {
    if i < 6 {
      assert ScopedBefore(i).enc == AsWrittenBefore(i);
      AsWrittenSteps(p, i);
    }
    match i
    case 0 =>
      assert [] + [ROOT] == [ROOT];
    case 1 =>
    case 2 =>
    case 3 =>
    case 4 =>
      assert [ROOT] + [MAP_VALUE] == [ROOT, MAP_VALUE];
    case 5 =>
      assert ScopedBefore(5).saved[..1] == [ROOT];
      assert Emit(ScopedBefore(5).enc, EndArray).(state := MAP_VALUE) == ScopedBefore(6).enc;
    case 6 =>
      assert ScopedBefore(6).saved[..0] == [];
      assert Emit(ScopedBefore(6).enc, EndDocument).(state := ROOT) == ScopedBefore(7).enc;
  }

  /** The first `i` calls of NestedCalls, with states saved. */
  lemma {:induction false} ScopedPrefix(p: Platform, i: nat)
    requires i <= 7
    ensures ScopedRun(ScopedBefore(0), StructuredKeys(), p, NestedCalls()[..i]) == Success(ScopedBefore(i))
  {
    if i > 0 {
      ScopedPrefix(p, i - 1);
      ScopedSteps(p, i - 1);
      assert NestedCalls()[..i][..i - 1] == NestedCalls()[..i - 1];
    }
  }

  /** With the enclosing state restored, {"k": {}} is a document holding an empty array,
      and the encoder is back in ROOT with nothing saved. */
  lemma NestedMapClosedAsDocument(p: Platform)
    ensures ScopedRun(Scoped(Start(), []), StructuredKeys(), p, NestedCalls())
      == Success(Scoped(Machine(ROOT, None, [StartDocument, Name("k"), StartArray, EndArray, EndDocument]), []))
  {
    ScopedPrefix(p, 7);
    assert NestedCalls()[..7] == NestedCalls();
  }
}
