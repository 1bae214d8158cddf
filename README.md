# bson4k in Dafny

bson4k is a BSON format for kotlinx.serialization. A generated serializer drives an
encoder or a decoder through a fixed call protocol:

- `beginStructure` and `endStructure` around every class, object, list, map and
  polymorphic value;
- `encodeElement`/`decodeElementIndex` once per element;
- one primitive call per value.

The encoder (`BsonEncoder`) turns these calls into writes on a `BsonDocumentWriter`. The
decoders (`BsonDecoder`, in a current and an earlier version) turn reads of an
`AbstractBsonReader` into element indices and primitive values. A validating builder
(`Bson { ... }`) produces the immutable configuration (`BsonConf`) that both sides
consult.

This project models that core:

- **The BSON vocabulary** (`tokens.dfy`). Fixed-width integers, BSON values and their
  type tags, and a flat token stream (`StartDocument`, `Name`, `Value`, `EndArray`, ...).
  A BSON document is read from such a stream and written to one.
- **The reader** (`reader.dfy`). A value over a token stream, with a cursor, a reader
  state (INITIAL, TYPE, NAME, VALUE, END_OF_DOCUMENT, END_OF_ARRAY, DONE), the current
  BSON type and a nesting depth. It has the reads the decoders call.
- **The writer.** An append-only token log.
- **Serial descriptors** (`descriptors.dfy`). A datatype of kind, serial name and
  elements, each element with its name, serial name, nullability and kind.
- **Configuration** (`conf.dfy`, `bson_kind.dfy`, `bson.dfy`, `type_mapping.dfy`). The
  defaults; the kinds a semantic mapping may annotate; the builder with its checks; and
  the nullable-aware lookup of type mappings.
- **Both decoders** (`decoder_core.dfy`, `decoder.dfy`, `legacy_decoder.dfy`):
  - the `state`/`currentIndex`/`useMapper` fields and the stack of saved frames;
  - pure step functions over a `Machine` value for every operation;
  - a `BsonDecoder` class per version, whose methods update those fields in place, each
    proved equal to its step function;
  - lemmas about element loops (list indices, map key/value alternation, the
    polymorphic discriminator), stack balance and integer conversion.
- **The encoder** (`encoder.dfy`):
  - the `state`/`useMapper` fields and the written token log;
  - step functions and a `BsonEncoder` class whose methods are proved equal to them;
  - lemmas about whole runs of calls: the documents written for classes, maps, lists and
    polymorphic values, and the root's refusal of anything but a document.
- **Reading back** (`roundtrip.dfy`). A map with string keys, written by the encoder,
  is read back key by key and value by value by either decoder. A class document is read
  back field by field, in any field order. An enum entry comes back as its own index.
- **The encoder with saved states** (`scoped_encoder.dfy`). The exact state restoration
  the decoders have, applied to the encoder; see Findings.

Library conversions (number printing and parsing, UUID, ObjectId, Instant, BsonBinary)
are the fields of a `Platform` record of functions (`platform.dfy`). Everything proved
here holds whatever they return.

Where the code and its documentation disagree, the code is followed. `Bson.kt` and
`BsonEncoder.kt` read `conf.encodeDefaults`, but `BsonConf.kt` does not declare it. The
model adds it as a field defaulting to false, which is what
`src/test/kotlin/io/imotions/bson4k/encoder/BsonClassEncoderTest.kt` expects. The current
decoder imports a `dk.ltj.bson4k.BsonConf` that is not part of this model, so both
decoders read the one `BsonConf`.

## Model

| member | source | states |
|---|---|---|
| BsonConfig.DefaultsAsDeclared | src/main/kotlin/io/imotions/bson4k/BsonConf.kt:23-34 | The default configuration has: discriminator "__type", no type mappings, structured map keys refused, implicit integer conversion on, and default-valued properties omitted. |
| BsonKinds.SupportedKindsExactly | src/main/kotlin/io/imotions/bson4k/Bson.kt:97-101 | DATE accepts exactly the Long and String primitives. OBJECT_ID and UUID accept exactly String. |
| Bson.HasIllegalFieldChar | src/main/kotlin/io/imotions/bson4k/Bson.kt:83 | The scan is true iff some character of the string is `$` or `.`. |
| Bson.BuildConf | src/main/kotlin/io/imotions/bson4k/Bson.kt:82-94 | `build` fails iff the discriminator holds `$` or `.`, with an IllegalArgumentException. Its message only lists the characters; the model's error also carries the discriminator. Otherwise the configuration is exactly the builder's settings. |
| Bson.AddTypeMappingTo | src/main/kotlin/io/imotions/bson4k/Bson.kt:75-80 | The mapping is refused iff the serializer's kind is not among the semantic kind's supported kinds. An accepted mapping is stored under the serial name, and every other name keeps its entry. |
| Bson.BsonBuilder.AddTypeMapping | src/main/kotlin/io/imotions/bson4k/Bson.kt:75-80 | A rejected mapping leaves every builder field unchanged, because the `require` runs first. An accepted one overwrites the entry for its serial name and nothing else. |
| Bson.BsonBuilder.Build | src/main/kotlin/io/imotions/bson4k/Bson.kt:82-94 | The outcome is BuildConf of the builder's current settings. |
| Bson.Bson | src/main/kotlin/io/imotions/bson4k/Bson.kt:59-64 | Running the builder block statement by statement on a builder started from the defaults, then building, gives BsonOf of the block. The loop invariant ties the builder's fields to the block's prefix. |
| Bson.ApplyActionsStopsAtFailure | src/main/kotlin/io/imotions/bson4k/Bson.kt:75-78 | Once a statement of the block throws, the whole block ends with that exception. |
| Bson.DefaultBsonIsDefaultConf | src/main/kotlin/io/imotions/bson4k/Bson.kt:59-64 | `Bson { }` yields the default configuration, whose discriminator "__type" passes the check. |
| Bson.IllegalDiscriminatorsRejected | src/main/kotlin/io/imotions/bson4k/Bson.kt:83-85 | The discriminators "$type" and "type.." are refused by `build`. |
| Bson.LastMappingWins | src/main/kotlin/io/imotions/bson4k/Bson.kt:79 | Two supported mappings under one serial name leave only the later one. |
| Bson.UnsupportedMappingAborts | src/main/kotlin/io/imotions/bson4k/Bson.kt:75-78 | An unsupported mapping anywhere in the block makes `Bson { ... }` fail. |
| TypeMapping.RemoveSuffix | src/main/kotlin/dk/ltj/bson4k/decoder/BsonDecoder.kt:103 | If the suffix ends the string, the result followed by the suffix is the string. Otherwise the string is unchanged. |
| TypeMapping.MappingFor | src/main/kotlin/dk/ltj/bson4k/decoder/BsonDecoder.kt:102-106 | There is a mapping iff the element's lookup name is a key of the table, and it is the table's entry for that name. |
| TypeMapping.NullableNameNormalized | src/main/kotlin/io/imotions/bson4k/encoder/BsonEncoder.kt:128-133 | For an element of any kind, a nullable one named `n?` shares the mapping registered for `n`. A non-nullable one is looked up under its exact name. |
| TypeMapping.MappingAffectsOnlyItsName | src/main/kotlin/io/imotions/bson4k/Bson.kt:79 | Registering a name changes the mapping of exactly the elements whose lookup name it is. |
| Tokens.ToByte | src/main/kotlin/dk/ltj/bson4k/decoder/BsonDecoder.kt:188 | `Int.toByte()` agrees with its argument modulo 256 and is the identity on the byte range. |
| Tokens.ToShort | src/main/kotlin/dk/ltj/bson4k/decoder/BsonDecoder.kt:221 | `Int.toShort()` agrees with its argument modulo 65536 and is the identity on the short range. |
| DecoderCore.Saved | src/main/kotlin/dk/ltj/bson4k/decoder/BsonDecoder.kt:280-284 | A saved state is never MAP_VALUE. MAP_VALUE is saved as MAP_KEY, and every other state as itself. |
| DecoderCore.Preserve | src/main/kotlin/dk/ltj/bson4k/decoder/BsonDecoder.kt:279-286 | `preserveState` pushes exactly one frame, holding the saved state and the cursor, and changes nothing else. |
| DecoderCore.Restore | src/main/kotlin/dk/ltj/bson4k/decoder/BsonDecoder.kt:288-293 | `restoreState` fails with NoSuchElementException iff the stack is empty. Otherwise it pops exactly one frame and makes its state and cursor current. |
| DecoderCore.PreserveRestore | src/main/kotlin/dk/ltj/bson4k/decoder/BsonDecoder.kt:279-293 | Restoring right after preserving gives back the stack, the cursor, and the state with MAP_VALUE turned into MAP_KEY. |
| DecoderCore.DecodeBsonElementStep | src/main/kotlin/dk/ltj/bson4k/decoder/BsonDecoder.kt:252-269 | At the reader's INITIAL state it throws. Otherwise: in MAP_KEY it reads the field name and moves to MAP_VALUE; in MAP_VALUE it reads a value of the requested type and moves to MAP_KEY; in any other state it reads the value and keeps the state. It never touches the stack, cursor or mapper. |
| DecoderCore.DecodeNotNullMarkStep | src/main/kotlin/dk/ltj/bson4k/decoder/BsonDecoder.kt:177-184 | The result is false only when the current type is NULL, and then exactly the null token is consumed. Otherwise it is true and nothing is read. |
| DecoderCore.DecodeStringStep | src/main/kotlin/dk/ltj/bson4k/decoder/BsonDecoder.kt:223-228 | A UUID mapping reads a binary, an OBJECT_ID mapping reads an object id, and a DATE mapping reads a date-time rendered as an instant. Unmapped, outside a key, it reads a string element. |
| DecoderCore.DecodeEnumStep | src/main/kotlin/dk/ltj/bson4k/decoder/BsonDecoder.kt:230-231 | It fails iff `decodeString()` fails, with the same error, and otherwise leaves the decoder as `decodeString()` does. The index is UNKNOWN_NAME iff no entry has the decoded name. Any other index lies within the entries, and its entry has that name. |
| DecoderCore.DecodeInt32Step | src/main/kotlin/dk/ltj/bson4k/decoder/BsonDecoder.kt:204 | Outside a key, a decoded Int is exactly the value of an INT32 token at the reader. |
| DecoderCore.DecodeInt64Step | src/main/kotlin/dk/ltj/bson4k/decoder/BsonDecoder.kt:212 | Outside a key, a decoded Long is exactly the value of an INT64 token at the reader. |
| DecoderCore.DecodeNullStep | src/main/kotlin/dk/ltj/bson4k/decoder/BsonDecoder.kt:216-219 | `decodeNull` keeps the stack and cursor. In MAP_VALUE, where the null was already consumed, it only moves the decoder to MAP_KEY. |
| DecoderCore.ChooseMapper | src/main/kotlin/dk/ltj/bson4k/decoder/BsonDecoder.kt:98-108 | DONE and unknown names leave the mapper alone, and a map key clears it. Any other index installs the table's entry for the element's lookup name, or none. An index beyond the descriptor fails. |
| DecoderCore.DocumentIndex | src/main/kotlin/dk/ltj/bson4k/decoder/BsonDecoder.kt:57-66 | The DOCUMENT branch touches only the reader, and yields DONE, UNKNOWN_NAME or a valid element index. At a field name followed by a value, it yields the index of that name and consumes the name. At the end of the document it yields DONE. A field name followed by anything else throws. |
| DecoderCore.FieldMachineShape | src/main/kotlin/dk/ltj/bson4k/decoder/BsonDecoder.kt:57-66 | After any number of fields, a class document's decoder keeps its state, stack and cursor, and has moved two tokens per field. |
| DecoderCore.FieldsReadFromSteps | src/main/kotlin/dk/ltj/bson4k/decoder/BsonDecoder.kt:57-66 | If each round reads one field and ends documents, the loop over a class document hands out each field's name index and value, in document order, then DONE. It ends at the end of the document, two tokens per field further on. |
| DecoderCore.MapKeyIndex | src/main/kotlin/dk/ltj/bson4k/decoder/BsonDecoder.kt:73-76 | MAP_KEY yields 0 or DONE, without consuming the field name. |
| DecoderCore.PolymorphicIndex | src/main/kotlin/dk/ltj/bson4k/decoder/BsonDecoder.kt:79-95 | Cursor 0 yields 0 and moves it to 1, and cursor 1 yields 1 and moves it to 2. Any other cursor yields DONE with nothing changed. |
| DecoderCore.EndStructureStep | src/main/kotlin/dk/ltj/bson4k/decoder/BsonDecoder.kt:153-175 | It pops exactly one frame and restores its state and cursor, failing on an empty stack. A structure kind closes one level of the reader, and any other kind leaves the reader untouched. |
| DecoderCore.MapEndFollowsReader | src/main/kotlin/io/imotions/bson4k/decoder/BsonDecoder.kt:148-154 | Ending a map reads an end of array iff the reader is at END_OF_ARRAY, and an end of document otherwise. |
| DecoderCore.FirstKind | src/main/kotlin/dk/ltj/bson4k/decoder/BsonDecoder.kt:121 | `elementDescriptors.first()` fails iff there are no elements. Otherwise it is the first element's kind. |
| DecoderCore.BeginList | src/main/kotlin/dk/ltj/bson4k/decoder/BsonDecoder.kt:147-151 | It enters LIST with the given cursor, after opening exactly one array. |
| DecoderCore.BeginClass | src/main/kotlin/dk/ltj/bson4k/decoder/BsonDecoder.kt:135-140 | In POLYMORPHIC only the state changes, to DOCUMENT. Otherwise one document is opened. |
| DecoderCore.RunKeepsOuterFrames | src/main/kotlin/dk/ltj/bson4k/decoder/BsonDecoder.kt:113-175 | A run that never closes more than it opened keeps the frames below it untouched, with one new frame per structure still open. |
| DecoderCore.RunKeepsFramesSaved | src/main/kotlin/dk/ltj/bson4k/decoder/BsonDecoder.kt:279-286 | No run of calls ever stores a MAP_VALUE frame. |
| DecoderCore.BalancedStructureRestores | src/main/kotlin/dk/ltj/bson4k/decoder/BsonDecoder.kt:113-175 | Begin, a balanced run and end give back the stack, the cursor, and the state with MAP_VALUE turned into MAP_KEY. |
| Decoder.ElementIndexCases | src/main/kotlin/dk/ltj/bson4k/decoder/BsonDecoder.kt:55-111 | MAP_VALUE yields 1 without reading. A list yields its cursor and then increments it, or DONE at the end. MAP_KEY yields 0 or DONE, and a polymorphic value yields 0, 1, then DONE. A real index installs its element's mapping, except in MAP_KEY. A class document at a named field yields that name's index and consumes the name. At its end it yields DONE. |
| Decoder.BeginStructureStep | src/main/kotlin/dk/ltj/bson4k/decoder/BsonDecoder.kt:113-151 | Exactly one frame is pushed. A list enters LIST at 0. A map without elements throws NoSuchElementException. A map enters LIST at 0 iff its keys are classes and structured keys are allowed, and MAP_KEY otherwise. A polymorphic value enters POLYMORPHIC at 0. A class or object enters DOCUMENT, without a read when in POLYMORPHIC. Any other kind throws. |
| Decoder.DecodeIntStep | src/main/kotlin/dk/ltj/bson4k/decoder/BsonDecoder.kt:196-205 | The stack and cursor are kept. |
| Decoder.DecodeLongStep | src/main/kotlin/dk/ltj/bson4k/decoder/BsonDecoder.kt:207-214 | A DATE mapping makes `decodeLong` read a date-time. |
| Decoder.Step | src/main/kotlin/dk/ltj/bson4k/decoder/BsonDecoder.kt:55-269 | Every call keeps the stack discipline. Begin pushes one frame and end pops one, restoring it. No other call touches the stack. |
| Decoder.StructureRestoresFrame | src/main/kotlin/dk/ltj/bson4k/decoder/BsonDecoder.kt:113-154 | beginStructure, any balanced run and endStructure return the decoder to its frame, with MAP_VALUE turned into MAP_KEY. |
| Decoder.NoMapValueFrames | src/main/kotlin/dk/ltj/bson4k/decoder/BsonDecoder.kt:279-286 | No run of decoder calls saves a MAP_VALUE frame. |
| Decoder.ListCountsFromCursor | src/main/kotlin/dk/ltj/bson4k/decoder/BsonDecoder.kt:68-71 | Over the elements of an array, the indices are the cursor, cursor + 1, ..., and then DONE. Each element is read from its token, and the reader ends at END_OF_ARRAY. |
| Decoder.MapAlternatesKeyAndValue | src/main/kotlin/dk/ltj/bson4k/decoder/BsonDecoder.kt:73-78 | Over a map document, the indices are 0 and 1 by turns, and then DONE. Each key is read from its field name and each value from its token. |
| Decoder.FieldIndexed | src/main/kotlin/dk/ltj/bson4k/decoder/BsonDecoder.kt:57-66 | At a field of a class document, decodeElementIndex yields that name's index, consumes the name and installs the element's mapping. |
| Decoder.FieldRound | src/main/kotlin/dk/ltj/bson4k/decoder/BsonDecoder.kt:57-66 | At a field of a class document, a round hands out the index of its name and then reads its value from the token. |
| Decoder.DocumentReadsFields | src/main/kotlin/dk/ltj/bson4k/decoder/BsonDecoder.kt:57-66 | Over a class document, in any field order, the indices are the fields' name indices and then DONE. Each value is read from its token. |
| Decoder.MapEndRound | src/main/kotlin/dk/ltj/bson4k/decoder/BsonDecoder.kt:73-76 | At the end of a map's document, decodeElementIndex yields DONE. |
| Decoder.DiscriminatorComesFirst | src/main/kotlin/dk/ltj/bson4k/decoder/BsonDecoder.kt:79-90 | The first field of a polymorphic value yields 0 iff it is named after the discriminator. Otherwise it throws the BsonDecodingException that names the discriminator and the type. |
| Decoder.IntFromInt64 | src/main/kotlin/dk/ltj/bson4k/decoder/BsonDecoder.kt:196-205 | With conversion on, `decodeInt` on an INT64 succeeds iff the value fits in 32 bits, returns that value, and otherwise throws naming the number. With conversion off, the reader rejects the type. |
| Decoder.LongFromInt32 | src/main/kotlin/dk/ltj/bson4k/decoder/BsonDecoder.kt:207-214 | With conversion on, `decodeLong` widens an INT32 value. With conversion off, the reader rejects it. |
| Decoder.BsonDecoder.constructor | src/main/kotlin/dk/ltj/bson4k/decoder/BsonDecoder.kt:43-53 | A new decoder is in DOCUMENT, with cursor 0, no mapper and an empty stack. |
| Decoder.BsonDecoder.DecodeElementIndex | src/main/kotlin/dk/ltj/bson4k/decoder/BsonDecoder.kt:55-111 | The result and the new fields are those of DecodeElementIndexStep on the old fields. |
| Decoder.BsonDecoder.BeginStructure | src/main/kotlin/dk/ltj/bson4k/decoder/BsonDecoder.kt:113-145 | The new fields are BeginStructureStep of the old ones. |
| Decoder.BsonDecoder.BeginListStructure | src/main/kotlin/dk/ltj/bson4k/decoder/BsonDecoder.kt:147-151 | The new fields are BeginList of the old ones, with cursor 0. |
| Decoder.BsonDecoder.EndStructure | src/main/kotlin/dk/ltj/bson4k/decoder/BsonDecoder.kt:153-175 | The new fields are EndStructureStep of the old ones. |
| Decoder.BsonDecoder.DecodeNotNullMark | src/main/kotlin/dk/ltj/bson4k/decoder/BsonDecoder.kt:177-184 | The result and the new fields are DecodeNotNullMarkStep of the old ones. |
| Decoder.BsonDecoder.DecodeBoolean | src/main/kotlin/dk/ltj/bson4k/decoder/BsonDecoder.kt:186 | The result is that of DecodeBooleanStep: readBoolean, or String.toBoolean on a key. |
| Decoder.BsonDecoder.DecodeByte | src/main/kotlin/dk/ltj/bson4k/decoder/BsonDecoder.kt:188 | The result is `decodeInt()` truncated to its low 8 bits. |
| Decoder.BsonDecoder.DecodeChar | src/main/kotlin/dk/ltj/bson4k/decoder/BsonDecoder.kt:190 | The result is the first character of `decodeString()`. An empty string throws. |
| Decoder.BsonDecoder.DecodeDouble | src/main/kotlin/dk/ltj/bson4k/decoder/BsonDecoder.kt:192 | The result is that of DecodeDoubleStep: readDouble, or String.toDouble on a key. |
| Decoder.BsonDecoder.DecodeInt | src/main/kotlin/dk/ltj/bson4k/decoder/BsonDecoder.kt:196-205 | The result and the new fields are DecodeIntStep of the old ones. |
| Decoder.BsonDecoder.DecodeLong | src/main/kotlin/dk/ltj/bson4k/decoder/BsonDecoder.kt:207-214 | The result and the new fields are DecodeLongStep of the old ones. |
| Decoder.BsonDecoder.DecodeNull | src/main/kotlin/dk/ltj/bson4k/decoder/BsonDecoder.kt:216-219 | The new fields are DecodeNullStep of the old ones. |
| Decoder.BsonDecoder.DecodeShort | src/main/kotlin/dk/ltj/bson4k/decoder/BsonDecoder.kt:221 | The result is `decodeInt()` truncated to its low 16 bits. |
| Decoder.BsonDecoder.DecodeString | src/main/kotlin/dk/ltj/bson4k/decoder/BsonDecoder.kt:223-228 | The result and the new fields are DecodeStringStep of the old ones. |
| Decoder.BsonDecoder.DecodeEnum | src/main/kotlin/dk/ltj/bson4k/decoder/BsonDecoder.kt:230-231 | The result is the index of the enum entry named by `decodeString()`. |
| Decoder.BsonDecoder.DecodeByteArray | src/main/kotlin/dk/ltj/bson4k/decoder/BsonDecoder.kt:233-236 | The result is the data of the binary that readBinaryData reads, or of a key's text. |
| Decoder.BsonDecoder.DecodeBsonDateTimeToLong | src/main/kotlin/dk/ltj/bson4k/decoder/BsonDecoder.kt:238 | The result is readDateTime, or String.toLong on a key. |
| Decoder.BsonDecoder.DecodeBsonDateTimeToString | src/main/kotlin/dk/ltj/bson4k/decoder/BsonDecoder.kt:240 | The result is the instant text of `decodeBsonDateTimeToLong()`. |
| Decoder.BsonDecoder.DecodeBsonObjectId | src/main/kotlin/dk/ltj/bson4k/decoder/BsonDecoder.kt:242-245 | The result is the hex string of the object id read. |
| Decoder.BsonDecoder.DecodeUuid | src/main/kotlin/dk/ltj/bson4k/decoder/BsonDecoder.kt:247-250 | The result is the text of the UUID stored in the binary read. |
| Decoder.BsonDecoder.DecodeBsonElement | src/main/kotlin/dk/ltj/bson4k/decoder/BsonDecoder.kt:252-269 | The result and the new fields are DecodeBsonElementStep of the old ones. |
| Decoder.BsonDecoder.PreserveState | src/main/kotlin/dk/ltj/bson4k/decoder/BsonDecoder.kt:279-286 | The new fields are Preserve of the old ones. |
| Decoder.BsonDecoder.RestoreState | src/main/kotlin/dk/ltj/bson4k/decoder/BsonDecoder.kt:288-293 | The new fields are Restore of the old ones. |
| LegacyDecoder.ElementIndexCases | src/main/kotlin/io/imotions/bson4k/decoder/BsonDecoder.kt:53-107 | As in the current decoder, except that a list first increments its cursor and then yields it. A class document at a named field yields that name's index, and at its end DONE. |
| LegacyDecoder.BeginStructureStep | src/main/kotlin/io/imotions/bson4k/decoder/BsonDecoder.kt:109-140 | Exactly one frame is pushed. A list, or a map with class keys under allowStructuredMapKeys, enters LIST at -1. Other maps enter MAP_KEY. A polymorphic value enters POLYMORPHIC at 0. A class or object enters DOCUMENT, without a read when in POLYMORPHIC. Any other kind only saves the frame. |
| LegacyDecoder.DecodeLongStep | src/main/kotlin/io/imotions/bson4k/decoder/BsonDecoder.kt:183-186 | A DATE mapping reads a date-time, and anything else reads an INT64. |
| LegacyDecoder.Step | src/main/kotlin/io/imotions/bson4k/decoder/BsonDecoder.kt:53-239 | Every call keeps the stack discipline. |
| LegacyDecoder.StructureRestoresFrame | src/main/kotlin/io/imotions/bson4k/decoder/BsonDecoder.kt:249-263 | beginStructure, a balanced run and endStructure restore the parent's state, with MAP_VALUE as MAP_KEY, and its cursor exactly. |
| LegacyDecoder.NoMapValueFrames | src/main/kotlin/io/imotions/bson4k/decoder/BsonDecoder.kt:249-256 | No run of calls saves a MAP_VALUE frame. |
| LegacyDecoder.ListCountsFromCursor | src/main/kotlin/io/imotions/bson4k/decoder/BsonDecoder.kt:65-68 | Over the elements of an array, the indices are the cursor + 1, + 2, ..., and then DONE. Each element is read from its token. |
| LegacyDecoder.ListIndicesAgree | src/main/kotlin/io/imotions/bson4k/decoder/BsonDecoder.kt:112-116 | Entered at -1, this decoder yields the same indices and elements as the current decoder entered at 0: 0, 1, 2, ..., then DONE. |
| LegacyDecoder.MapAlternatesKeyAndValue | src/main/kotlin/io/imotions/bson4k/decoder/BsonDecoder.kt:69-73 | Over a map document, the indices are 0 and 1 by turns, and then DONE. Keys come from names and values from tokens. |
| LegacyDecoder.FieldIndexed | src/main/kotlin/io/imotions/bson4k/decoder/BsonDecoder.kt:55-64 | At a field of a class document, decodeElementIndex yields that name's index, consumes the name and installs the element's mapping. |
| LegacyDecoder.FieldRound | src/main/kotlin/io/imotions/bson4k/decoder/BsonDecoder.kt:55-64 | A round at a field hands out its name's index and reads its value from the token. |
| LegacyDecoder.DocumentReadsFields | src/main/kotlin/io/imotions/bson4k/decoder/BsonDecoder.kt:55-64 | Over a class document, in any field order, the indices are the fields' name indices and then DONE. Each value is read from its token. |
| LegacyDecoder.MapEndRound | src/main/kotlin/io/imotions/bson4k/decoder/BsonDecoder.kt:69-72 | At the end of a map's document, decodeElementIndex yields DONE. |
| LegacyDecoder.DiscriminatorComesFirst | src/main/kotlin/io/imotions/bson4k/decoder/BsonDecoder.kt:74-91 | The first field yields 0 iff it is the discriminator. Otherwise it throws a SerializationException naming the expected discriminator. |
| LegacyDecoder.IntRejectsInt64 | src/main/kotlin/io/imotions/bson4k/decoder/BsonDecoder.kt:181 | `decodeInt` on an INT64 is rejected whatever the configuration says. |
| LegacyDecoder.LongRejectsInt32 | src/main/kotlin/io/imotions/bson4k/decoder/BsonDecoder.kt:183-186 | `decodeLong` on an unmapped INT32 is rejected whatever the configuration says. |
| LegacyDecoder.BsonDecoder.constructor | src/main/kotlin/io/imotions/bson4k/decoder/BsonDecoder.kt:41-51 | A new decoder is in DOCUMENT, with cursor -1, no mapper and an empty stack. |
| LegacyDecoder.BsonDecoder.DecodeElementIndex | src/main/kotlin/io/imotions/bson4k/decoder/BsonDecoder.kt:53-107 | The result and the new fields are DecodeElementIndexStep of the old ones. |
| LegacyDecoder.BsonDecoder.BeginStructure | src/main/kotlin/io/imotions/bson4k/decoder/BsonDecoder.kt:109-140 | The new fields are BeginStructureStep of the old ones. |
| LegacyDecoder.BsonDecoder.EndStructure | src/main/kotlin/io/imotions/bson4k/decoder/BsonDecoder.kt:142-160 | The new fields are EndStructureStep of the old ones. |
| LegacyDecoder.BsonDecoder.DecodeNotNullMark | src/main/kotlin/io/imotions/bson4k/decoder/BsonDecoder.kt:162-169 | The result and the new fields are DecodeNotNullMarkStep of the old ones. |
| LegacyDecoder.BsonDecoder.DecodeInt | src/main/kotlin/io/imotions/bson4k/decoder/BsonDecoder.kt:181 | The result is readInt32, or String.toInt on a key. |
| LegacyDecoder.BsonDecoder.DecodeLong | src/main/kotlin/io/imotions/bson4k/decoder/BsonDecoder.kt:183-186 | The result and the new fields are DecodeLongStep of the old ones. |
| LegacyDecoder.BsonDecoder.DecodeString | src/main/kotlin/io/imotions/bson4k/decoder/BsonDecoder.kt:195-200 | The result and the new fields are DecodeStringStep of the old ones. |
| LegacyDecoder.BsonDecoder.DecodeBsonElement | src/main/kotlin/io/imotions/bson4k/decoder/BsonDecoder.kt:224-239 | The result and the new fields are DecodeBsonElementStep of the old ones. |
| LegacyDecoder.BsonDecoder.PreserveState | src/main/kotlin/io/imotions/bson4k/decoder/BsonDecoder.kt:249-256 | The new fields are Preserve of the old ones. |
| LegacyDecoder.BsonDecoder.RestoreState | src/main/kotlin/io/imotions/bson4k/decoder/BsonDecoder.kt:258-263 | The new fields are Restore of the old ones. |
| Encoder.DefaultsFollowConfiguration | src/main/kotlin/io/imotions/bson4k/encoder/BsonEncoder.kt:55-56 | `shouldEncodeElementDefault` ignores the descriptor and the index. It is true iff `encodeDefaults` is set, and false by default. |
| Encoder.BeginStructureStep | src/main/kotlin/io/imotions/bson4k/encoder/BsonEncoder.kt:58-95 | Per kind: a list writes StartArray, or throws rootNotDocument at ROOT. A map without elements throws. A map with class keys writes StartArray and enters STRUCTURED_MAP under allowStructuredMapKeys, and otherwise throws invalidKeyKind naming the map. Other maps write StartDocument and enter MAP. A polymorphic value writes StartDocument and enters POLYMORPHIC. A class or object writes nothing and enters BEGIN when in POLYMORPHIC, and otherwise writes StartDocument. Other kinds throw. A success never leaves ROOT behind. |
| Encoder.EndStructureStep | src/main/kotlin/io/imotions/bson4k/encoder/BsonEncoder.kt:97-112 | A list writes EndArray. A map writes EndArray in STRUCTURED_MAP and EndDocument otherwise. A class or object writes EndDocument unless in POLYMORPHIC. A polymorphic value writes EndDocument and returns to BEGIN only when still in POLYMORPHIC. |
| Encoder.Toggled | src/main/kotlin/io/imotions/bson4k/encoder/BsonEncoder.kt:117-120 | The next state is MAP_VALUE iff the current one is MAP_KEY, and MAP_KEY otherwise. |
| Encoder.EncodeElementStep | src/main/kotlin/io/imotions/bson4k/encoder/BsonEncoder.kt:114-136 | A class or object writes the element's name. A map outside STRUCTURED_MAP toggles without writing. A polymorphic value writes the discriminator for its "type" element and nothing for the other. The mapper becomes the element's lookup. The result is always true. |
| Encoder.EncodeBsonElementStep | src/main/kotlin/io/imotions/bson4k/encoder/BsonEncoder.kt:190-196 | It fails iff the state is ROOT, with rootNotDocument. In MAP_KEY it writes the value's text as a field name, and otherwise the value token. |
| Encoder.EncodeStringStep | src/main/kotlin/io/imotions/bson4k/encoder/BsonEncoder.kt:138-145 | Unmapped, it writes a string. OBJECT_ID writes the parsed object id, UUID the parsed UUID's binary, and DATE the parsed instant's date-time. A failed parse outside ROOT is the library's exception. |
| Encoder.EncodeLongStep | src/main/kotlin/io/imotions/bson4k/encoder/BsonEncoder.kt:162-167 | A DATE mapping writes a date-time, and anything else writes an INT64. |
| Encoder.RootAcceptsOnlyDocuments | src/main/kotlin/io/imotions/bson4k/encoder/BsonEncoder.kt:83-85 | At ROOT, a list and every primitive except null are refused. Apart from an enum and a mapped string or char, which may fail in conversion first, the error is rootNotDocument. `encodeNull` is not refused by the encoder there, and the log records its null token; the mongodb writer's own refusal is not modelled. |
| Encoder.PlainValueWritten | src/main/kotlin/io/imotions/bson4k/encoder/BsonEncoder.kt:190-196 | Outside ROOT and MAP_KEY, an unmapped plain value's encoder writes exactly that value. |
| Encoder.KeyNameWritten | src/main/kotlin/io/imotions/bson4k/encoder/BsonEncoder.kt:190-193 | In MAP_KEY, a string key becomes a field name. |
| Encoder.FieldsWritten | src/main/kotlin/io/imotions/bson4k/encoder/BsonEncoder.kt:116 | The fields of a class or object are written as name and value, in order, in the same state. |
| Encoder.EntriesWritten | src/main/kotlin/io/imotions/bson4k/encoder/BsonEncoder.kt:117-120 | The entries of a map with string keys are written as key name and value, in order, ending in MAP_VALUE. |
| Encoder.MapEncodes | src/main/kotlin/io/imotions/bson4k/encoder/BsonEncoder.kt:65-77 | Such a map is written as StartDocument, its entries and EndDocument. |
| Encoder.ItemsWritten | src/main/kotlin/io/imotions/bson4k/encoder/BsonEncoder.kt:190-196 | The items of a list of plain values are written as value tokens, in order. |
| Encoder.ListEncodes | src/main/kotlin/io/imotions/bson4k/encoder/BsonEncoder.kt:83-86 | At ROOT a list is refused with rootNotDocument. Elsewhere it is written as StartArray, its items and EndArray, with the state unchanged. |
| Encoder.ClassEncodes | src/main/kotlin/io/imotions/bson4k/encoder/BsonEncoder.kt:60-64 | A class or object is written as StartDocument, its fields and EndDocument. ROOT gives way to BEGIN. |
| Encoder.PolymorphicHead | src/main/kotlin/io/imotions/bson4k/encoder/BsonEncoder.kt:87-90 | The envelope opens a document whose first field is the discriminator, holding the type's serial name. |
| Encoder.PolymorphicEncodes | src/main/kotlin/io/imotions/bson4k/encoder/BsonEncoder.kt:105-109 | A polymorphic class is one document: StartDocument, the discriminator and type name, the payload's fields, and exactly one EndDocument. It ends in BEGIN. |
| Encoder.StructuredElementStep | src/main/kotlin/io/imotions/bson4k/encoder/BsonEncoder.kt:114-136 | In STRUCTURED_MAP, `encodeElement` writes nothing. It installs the key's mapping at even indices and the value's at odd ones. |
| Encoder.StructuredEntryWritten | src/main/kotlin/io/imotions/bson4k/encoder/BsonEncoder.kt:65-72 | One entry of a map with class keys is written as the key's class document followed by the value token. |
| Encoder.StructuredEntriesWritten | src/main/kotlin/io/imotions/bson4k/encoder/BsonEncoder.kt:114-136 | The entries of such a map are written in order, and the state stays STRUCTURED_MAP. |
| Encoder.StructuredTokensAlternate | src/main/kotlin/io/imotions/bson4k/encoder/BsonEncoder.kt:65-72 | Those tokens alternate: a key document, then a value token, for each entry. |
| Encoder.StructuredMapEncodes | src/main/kotlin/io/imotions/bson4k/encoder/BsonEncoder.kt:65-72 | Under allowStructuredMapKeys, a map with class keys is written as StartArray, key document and value by turns, and EndArray. The encoder is left in STRUCTURED_MAP. |
| Encoder.BsonEncoder.constructor | src/main/kotlin/io/imotions/bson4k/encoder/BsonEncoder.kt:39-47 | A new encoder is at ROOT, with no mapper and nothing written. |
| Encoder.BsonEncoder.Document | src/main/kotlin/io/imotions/bson4k/encoder/BsonEncoder.kt:49-53 | The document is the tokens written so far. |
| Encoder.BsonEncoder.ShouldEncodeElementDefault | src/main/kotlin/io/imotions/bson4k/encoder/BsonEncoder.kt:55-56 | True iff `encodeDefaults` is set. |
| Encoder.BsonEncoder.BeginStructure | src/main/kotlin/io/imotions/bson4k/encoder/BsonEncoder.kt:58-95 | The new fields and log are BeginStructureStep of the old ones. |
| Encoder.BsonEncoder.EndStructure | src/main/kotlin/io/imotions/bson4k/encoder/BsonEncoder.kt:97-112 | The new fields and log are EndStructureStep of the old ones. |
| Encoder.BsonEncoder.EncodeElement | src/main/kotlin/io/imotions/bson4k/encoder/BsonEncoder.kt:114-136 | The result and the new fields are EncodeElementStep of the old ones. |
| Encoder.BsonEncoder.EncodeBsonElement | src/main/kotlin/io/imotions/bson4k/encoder/BsonEncoder.kt:190-196 | The new fields and log are EncodeBsonElementStep of the old ones. |
| Encoder.BsonEncoder.EncodeString | src/main/kotlin/io/imotions/bson4k/encoder/BsonEncoder.kt:138-145 | The new fields and log are EncodeStringStep of the old ones. |
| Encoder.BsonEncoder.EncodeInt | src/main/kotlin/io/imotions/bson4k/encoder/BsonEncoder.kt:147 | It writes an INT32, or its text as a key. |
| Encoder.BsonEncoder.EncodeBoolean | src/main/kotlin/io/imotions/bson4k/encoder/BsonEncoder.kt:149 | It writes a boolean, or its text as a key. |
| Encoder.BsonEncoder.EncodeByte | src/main/kotlin/io/imotions/bson4k/encoder/BsonEncoder.kt:151 | It writes the byte as an INT32. |
| Encoder.BsonEncoder.EncodeChar | src/main/kotlin/io/imotions/bson4k/encoder/BsonEncoder.kt:153 | It writes the one-character string. |
| Encoder.BsonEncoder.EncodeDouble | src/main/kotlin/io/imotions/bson4k/encoder/BsonEncoder.kt:155 | It writes a double, or its text as a key. |
| Encoder.BsonEncoder.EncodeEnum | src/main/kotlin/io/imotions/bson4k/encoder/BsonEncoder.kt:157-158 | It writes the entry's name as a string. |
| Encoder.BsonEncoder.EncodeLong | src/main/kotlin/io/imotions/bson4k/encoder/BsonEncoder.kt:162-167 | The new fields and log are EncodeLongStep of the old ones. |
| Encoder.BsonEncoder.EncodeNull | src/main/kotlin/io/imotions/bson4k/encoder/BsonEncoder.kt:169 | The encoder passes `writeNull` to the writer in every state, and the log gains exactly one null token. The writer's refusal at the root or where a field name is due is not modelled. |
| Encoder.BsonEncoder.EncodeShort | src/main/kotlin/io/imotions/bson4k/encoder/BsonEncoder.kt:171 | It writes the short as an INT32. |
| Encoder.BsonEncoder.EncodeByteArray | src/main/kotlin/io/imotions/bson4k/encoder/BsonEncoder.kt:173 | It writes a subtype-0 binary of the bytes. |
| Encoder.BsonEncoder.EncodeBsonDateTime | src/main/kotlin/io/imotions/bson4k/encoder/BsonEncoder.kt:175 | It writes a date-time of the milliseconds. |
| Encoder.BsonEncoder.EncodeBsonDateTimeText | src/main/kotlin/io/imotions/bson4k/encoder/BsonEncoder.kt:177-180 | It writes the date-time of the parsed instant, or fails with the parser. |
| Encoder.BsonEncoder.EncodeBsonObjectId | src/main/kotlin/io/imotions/bson4k/encoder/BsonEncoder.kt:182 | It writes the parsed object id, or fails with the parser. |
| Encoder.BsonEncoder.EncodeUuid | src/main/kotlin/io/imotions/bson4k/encoder/BsonEncoder.kt:184-185 | It writes the UUID as a standard binary, or its text as a key. |
| Encoder.BsonEncoder.EncodeUuidText | src/main/kotlin/io/imotions/bson4k/encoder/BsonEncoder.kt:187-188 | It writes the parsed UUID, or fails with the parser. |
| RoundTrip.MapDocument | src/main/kotlin/io/imotions/bson4k/encoder/BsonEncoder.kt:65-77 | The document of a map holds, between StartDocument and EndDocument, each key's name followed by its value. |
| RoundTrip.EncodesMapDocument | src/main/kotlin/io/imotions/bson4k/encoder/BsonEncoder.kt:65-77 | A new encoder writes a map with string keys as exactly that document. |
| RoundTrip.LeavesMapDocument | src/main/kotlin/dk/ltj/bson4k/decoder/BsonDecoder.kt:160-166 | At the document's close, endStructure consumes the last token, leaves the reader DONE, and restores the first frame. |
| RoundTrip.DecodesMapDocument | src/main/kotlin/dk/ltj/bson4k/decoder/BsonDecoder.kt:73-78 | The current decoder reads that document back: 0 and each key, 1 and each value, then DONE. It ends with the reader DONE and the decoder in its starting state. |
| RoundTrip.LegacyDecodesMapDocument | src/main/kotlin/io/imotions/bson4k/decoder/BsonDecoder.kt:69-73 | The earlier decoder reads it back the same way. |
| RoundTrip.MapRoundTrip | src/main/kotlin/io/imotions/bson4k/encoder/BsonEncoder.kt:114-120 | Encoding a map and decoding the document with either decoder gives back its keys and values, in order. |
| RoundTrip.ScopedEncodesMapDocument | src/main/kotlin/io/imotions/bson4k/encoder/BsonEncoder.kt:65-77 | With states saved and restored, a new encoder writes a map with string keys as the same document and ends in ROOT with nothing saved. |
| RoundTrip.ScopedMapRoundTrip | src/main/kotlin/dk/ltj/bson4k/decoder/BsonDecoder.kt:279-293 | With states saved and restored, the encoder writes the same document and ends in ROOT with nothing saved. The decoder reads the map back from it. |
| RoundTrip.NameIndexesItself | src/main/kotlin/dk/ltj/bson4k/decoder/BsonDecoder.kt:62 | When a class's element names are distinct, looking up an element's name gives back that element's index. |
| RoundTrip.FieldsAreEntries | src/main/kotlin/io/imotions/bson4k/encoder/BsonEncoder.kt:116 | A class's fields, written in declaration order, are the entries of a map from their names. |
| RoundTrip.EncodesClassDocument | src/main/kotlin/io/imotions/bson4k/encoder/BsonEncoder.kt:58-64 | A new encoder writes a class of plain fields as the document of its field names and values. |
| RoundTrip.DecodesClassDocument | src/main/kotlin/dk/ltj/bson4k/decoder/BsonDecoder.kt:57-66 | The current decoder reads any class document back, whatever the order of the fields and whether the class declares them. Each field is handed out by its name's index with its value, then DONE. It ends with the reader DONE and the decoder in its starting state. |
| RoundTrip.LegacyDecodesClassDocument | src/main/kotlin/io/imotions/bson4k/decoder/BsonDecoder.kt:55-64 | The earlier decoder reads any class document back the same way. |
| RoundTrip.DeclaredFieldsIndexed | src/main/kotlin/dk/ltj/bson4k/decoder/BsonDecoder.kt:57-66 | For declared fields in any order, the indices handed out are the declaration positions in that order, then DONE. |
| RoundTrip.FieldsInAnyOrder | src/main/kotlin/dk/ltj/bson4k/decoder/BsonDecoder.kt:57-66 | Both decoders read a document whose declared fields come in any order. They hand out each field's declaration index in document order, then DONE, with its value. |
| RoundTrip.ClassRoundTrip | src/main/kotlin/io/imotions/bson4k/encoder/BsonEncoder.kt:114-136 | Encoding a class and decoding its document with either decoder gives 0, 1, ..., then DONE, and each field's value. |
| RoundTrip.NullRoundTrip | src/main/kotlin/dk/ltj/bson4k/decoder/BsonDecoder.kt:177-184 | The token `encodeNull` appends is a null value; met as the current value, `decodeNotNullMark` answers false and consumes exactly that token. |
| RoundTrip.EnumRoundTrip | src/main/kotlin/io/imotions/bson4k/encoder/BsonEncoder.kt:157-158 | An enum entry is written as the string of its name, and `decodeEnum` on that string yields the entry's index again. |
| ScopedEncoder.ScopedStep | src/main/kotlin/io/imotions/bson4k/encoder/BsonEncoder.kt:58-112 | It writes what BsonEncoder writes. A map or polymorphic begin saves the state, and its end restores it. |
| ScopedEncoder.RunKeepsOuterScopes | src/main/kotlin/io/imotions/bson4k/encoder/BsonEncoder.kt:58-112 | A run that never closes more than it opened keeps the states saved below it. |
| ScopedEncoder.BalancedScopeRestores | src/main/kotlin/io/imotions/bson4k/encoder/BsonEncoder.kt:58-112 | A map or polymorphic value, opened, filled by balanced calls and closed, gives back the state the encoder was in and its saved states. |
| ScopedEncoder.FlatCallsAgree | src/main/kotlin/io/imotions/bson4k/encoder/BsonEncoder.kt:114-196 | Where no structure begins or ends, saving states changes nothing. |
| ScopedEncoder.ScopedMapEncodes | src/main/kotlin/io/imotions/bson4k/encoder/BsonEncoder.kt:65-77 | A map with string keys is written as the same document, and the starting state is given back. |
| ScopedEncoder.NestedMapClosedAsArray | src/main/kotlin/io/imotions/bson4k/encoder/BsonEncoder.kt:97-104 | As written, {"k": {}} of type Map<String, Map<K, Long>> under allowStructuredMapKeys has its outer document closed by EndArray. |
| ScopedEncoder.NestedMapClosedAsDocument | src/main/kotlin/io/imotions/bson4k/encoder/BsonEncoder.kt:97-104 | With states restored, the same calls close the outer map with EndDocument and end in ROOT. |

## Left out

- `encodeFloat` and `decodeFloat` (src/main/kotlin/io/imotions/bson4k/encoder/BsonEncoder.kt:160, src/main/kotlin/dk/ltj/bson4k/decoder/BsonDecoder.kt:194): floating point. A double is an opaque 64-bit pattern, and the float-to-double conversion is not modelled.
- The `println` in `encodeElement` for primitive descriptors (src/main/kotlin/io/imotions/bson4k/encoder/BsonEncoder.kt:124-125): console output only.
- `serializersModule` of the configuration, the builder and the engines: it names serializers and leaves no trace in any state modelled here.
- `Bson.encodeToBsonDocument`, `decodeFromBsonDocument`, `encodeToString` and `decodeFromString`: delegation to the mongodb writer and reader and to JSON.
- The mongodb `AbstractBsonReader` and `BsonDocumentWriter`. The reader is a token stream with a cursor and a reader state. The writer is an append-only log that checks neither its nesting nor its state. So the real writer's refusals are not modelled: a misplaced `writeEndArray`, and a value written at the root or where a field name is due. In particular `writeNull` from `encodeNull` at ROOT, or in MAP_KEY for a null map key, throws in the program but appends a null token in the log.
- The `document` getter's `writer.flush()`: no buffering exists in the log.
- UUID representations other than STANDARD in `encodeUUID`.
- The kotlinx.serialization traversal engine: a generated serializer is a sequence of calls. The encoder's run lemmas cover classes, maps with string keys, lists of plain values and polymorphic classes. Nested values are covered only by the stack lemmas and by the Findings.
- `BsonConf`'s `internal` constructor: Dafny has no module-private constructors. The configuration is an immutable datatype, and the builder is the modelled way to obtain one.
- Exception messages (`BsonExceptions.kt`, `Bson.kt`): each exception is a constructor whose fields are the values its message is built from: names, kinds and numbers. IllegalDiscriminatorCharacter also carries the discriminator, which the message of `Bson.kt:83-85` does not name. The message text itself is not modelled.
- Decoding with class keys under allowStructuredMapKeys: the encoder's documents for such maps are proved (Encoder.StructuredMapEncodes), but reading them back is not. That needs the nested class decoder inside the list loop, and the stack lemmas cover that only in general.
- `super.beginStructure`/`super.endStructure` of AbstractDecoder and AbstractEncoder: they return the engine itself and change nothing.
- Decoder.DecodeIntStep: its own contract only says that the stack and cursor are kept. What it decodes is stated by Decoder.IntFromInt64 and by DecoderCore.DecodeInt32Step.
- Decoder.DecodeLongStep: its own contract only covers the DATE mapping and frame keeping. The widening is stated by Decoder.LongFromInt32.

## Findings

| source | as written | input that shows it | evidently intended | confidence | as-written member | corrected member |
|---|---|---|---|---|---|---|
| src/main/kotlin/io/imotions/bson4k/encoder/BsonEncoder.kt:58-112 | The encoder keeps one `state` tag. `beginStructure` of a map overwrites it, and `endStructure` never restores the enclosing structure's state. | A `Map<String, Map<K, Long>>` holding `{"k": {}}`, with class keys `K` and allowStructuredMapKeys set. The inner map leaves STRUCTURED_MAP behind, so the outer map is closed with `writeEndArray` instead of `writeEndDocument`. A structured map whose values are maps toggles into MAP_KEY on its next key in the same way. | Each map and polymorphic value gives the encoder back the state it began in, as `preserveState`/`restoreState` do in the decoders. The outer map of the example is then closed with EndDocument. | not executed | ScopedEncoder.NestedMapClosedAsArray | ScopedEncoder.NestedMapClosedAsDocument |

The `BsonEncoder` class models the encoder as written. The corrected behaviour is
`ScopedEncoder.ScopedStep`, for which `ScopedEncoder.BalancedScopeRestores` proves the
restoration. `ScopedEncoder.ScopedMapEncodes` proves that it writes the same documents
as the encoder for flat maps, and `RoundTrip.ScopedMapRoundTrip` reads those documents
back.
