/** The BSON vocabulary shared by the reader, the writer and both engines:
    fixed-width integers, scalar values, their type tags, and the flat token
    stream a document is read from and written to. */
module Tokens {

  import opened Wrappers

  /** Kotlin `Int`, `Long`, `Short` and `Byte`: two's-complement ranges. */
  const INT_MIN: int := -0x8000_0000
  const INT_MAX: int := 0x7fff_ffff
  const LONG_MIN: int := -0x8000_0000_0000_0000
  const LONG_MAX: int := 0x7fff_ffff_ffff_ffff

  type Int32 = x: int | INT_MIN <= x <= INT_MAX
  type Int64 = x: int | LONG_MIN <= x <= LONG_MAX
  type Int16 = x: int | -0x8000 <= x <= 0x7fff
  type Int8 = x: int | -0x80 <= x <= 0x7f

  /** Kotlin `Int.toByte()`: keeps the low 8 bits, read as two's complement. */
  function ToByte(x: Int32): (b: Int8)
    ensures (b - x) % 0x100 == 0
    ensures -0x80 <= x <= 0x7f ==> b == x
  {
    (x + 0x80) % 0x100 - 0x80
  }

  /** Kotlin `Int.toShort()`: keeps the low 16 bits, read as two's complement. */
  function ToShort(x: Int32): (s: Int16)
    ensures (s - x) % 0x1_0000 == 0
    ensures -0x8000 <= x <= 0x7fff ==> s == x
  {
    (x + 0x8000) % 0x1_0000 - 0x8000
  }

  /** A double is carried as an uninterpreted 64-bit pattern; no arithmetic is done on it. */
  datatype Double = Double(bits: int)

  /** org.bson.types.ObjectId: twelve opaque bytes. */
  datatype ObjectId = ObjectId(bytes: seq<bv8>)

  /** org.bson.BsonBinary: a subtype tag and a payload. */
  datatype Binary = Binary(subtype: bv8, data: seq<bv8>)

  /** java.util.UUID: two 64-bit halves. */
  datatype Uuid = Uuid(mostSignificant: Int64, leastSignificant: Int64)

  /** The BSON type tags the engines look at (org.bson.BsonType). */
  datatype BsonType =
    | END_OF_DOCUMENT | DOUBLE | STRING | DOCUMENT | ARRAY | BINARY
    | OBJECT_ID | BOOLEAN | DATE_TIME | NULL | INT32 | INT64

  /** A scalar BSON value. */
  datatype BsonValue =
    | BsonNull
    | BsonBoolean(b: bool)
    | BsonInt32(i: Int32)
    | BsonInt64(l: Int64)
    | BsonDouble(d: Double)
    | BsonString(s: string)
    | BsonDateTime(millis: Int64)
    | BsonObjectId(oid: ObjectId)
    | BsonBinary(bin: Binary)

  function TypeOf(v: BsonValue): (t: BsonType)
    ensures t != END_OF_DOCUMENT && t != DOCUMENT && t != ARRAY
  {
    match v
    case BsonNull => NULL
    case BsonBoolean(_) => BOOLEAN
    case BsonInt32(_) => INT32
    case BsonInt64(_) => INT64
    case BsonDouble(_) => DOUBLE
    case BsonString(_) => STRING
    case BsonDateTime(_) => DATE_TIME
    case BsonObjectId(_) => OBJECT_ID
    case BsonBinary(_) => BINARY
  }

  /** One event of a serialized document: what a BsonDocumentWriter receives and
      what a BsonDocumentReader walks over, in document order. */
  datatype Token =
    | StartDocument
    | EndDocument
    | StartArray
    | EndArray
    | Name(name: string)
    | Value(v: BsonValue)

  /** The type of the value that starts at a token, if a value starts there. */
  function ValueTypeOf(t: Token): (r: Option<BsonType>)
    ensures r.Some? <==> (t.StartDocument? || t.StartArray? || t.Value?)
    ensures r == Some(DOCUMENT) <==> t.StartDocument?
    ensures r == Some(ARRAY) <==> t.StartArray?
  {
    match t
    case StartDocument => Some(DOCUMENT)
    case StartArray => Some(ARRAY)
    case Value(v) => Some(TypeOf(v))
    case _ => None
  }
}
