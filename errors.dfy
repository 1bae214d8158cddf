/** The failures the engines, the reader and the configuration builder raise.
    Each constructor stands for one exception class of the Kotlin code or of the
    libraries it calls; the message factories of BsonExceptions.kt become the
    data carried by the constructors. */
module Errors {

  import opened Tokens
  import opened Wrappers
  import Descriptors
  import BsonKinds

  /** What a BsonEncodingException reports. */
  datatype EncodingFailure =
    | RootNotDocument
    | InvalidKeyKind(mapSerialName: string)
    | UnsupportedStructureKind(kind: Descriptors.SerialKind)

  /** What the decoders report, as a BsonDecodingException (current decoder) or as a
      plain SerializationException (earlier decoder). */
  datatype DecodingFailure =
    | PrimitiveWithoutContainer
    | MissingClassDiscriminator(expected: string, polymorphicSerialName: string)
    | UnknownClassDiscriminator(expected: string)
    | OutOfRange(number: int)
    | IllegalBeginStructureKind(kind: Descriptors.SerialKind)

  /** What org.bson's BsonInvalidOperationException reports: a read in the wrong reader
      state, or a read of one BSON type where the stream holds another. `Malformed`
      stands for a token stream that is not a well-formed document. */
  datatype ReaderFault =
    | InvalidState
    | TypeMismatch(expected: BsonType, actual: Option<BsonType>)
    | Malformed

  /** Why a configuration-time `require(...)` of the builder fails. */
  datatype ArgumentFailure =
    | IllegalDiscriminatorCharacter(discriminator: string)
    | UnsupportedMapping(serialKind: Descriptors.SerialKind, bsonKind: BsonKinds.BsonKind)

  datatype Error =
    | EncodingException(encoding: EncodingFailure)       // BsonEncodingException
    | DecodingException(decoding: DecodingFailure)       // BsonDecodingException
    | SerializationException(decoding: DecodingFailure)  // kotlinx SerializationException
    | InvalidOperation(fault: ReaderFault)               // org.bson BsonInvalidOperationException
    | IllegalArgument(argument: ArgumentFailure)         // require(...) in the builder
    | NumberFormat(text: string)                         // String.toInt / String.toLong / String.toDouble
    | NoSuchElement                                      // first() or removeLast() on an empty collection
    | IndexOutOfBounds(index: int)                       // a descriptor asked for an element it lacks
    | ForeignFailure                                     // UUID, ObjectId or Instant conversion rejected its input
}
