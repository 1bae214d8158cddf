/** The library conversions the engines call but do not define: Kotlin's string
    printing and parsing of primitives, and the java.util.UUID, org.bson.types.ObjectId,
    org.bson.BsonBinary and java.time.Instant conversions. They are supplied as a record
    of functions, so every property proved here holds whatever those libraries do;
    `None` stands for the exception a parser throws on malformed text. */
module Platform {

  import opened Wrappers
  import opened Tokens

  datatype Platform = Platform(
    intText: Int32 -> string,                 // Int.toString()
    parseInt: string -> Option<Int32>,        // String.toInt()
    longText: Int64 -> string,                // Long.toString()
    parseLong: string -> Option<Int64>,       // String.toLong()
    booleanText: bool -> string,              // Boolean.toString()
    parseBoolean: string -> bool,             // String.toBoolean(), which never fails
    doubleText: Double -> string,             // Double.toString()
    parseDouble: string -> Option<Double>,    // String.toDouble()
    textBinary: string -> Binary,             // BsonBinary(s.toByteArray())
    binaryText: Binary -> string,             // BsonBinary.toString()
    binaryUuid: Binary -> Option<Uuid>,       // BsonBinary.asUuid()
    uuidBinary: Uuid -> Binary,               // BsonBinary(uuid, UuidRepresentation.STANDARD)
    uuidText: Uuid -> string,                 // UUID.toString()
    parseUuid: string -> Option<Uuid>,        // UUID.fromString(s)
    parseObjectId: string -> Option<ObjectId>,// ObjectId(hex)
    objectIdHex: ObjectId -> string,          // ObjectId.toHexString(), also its toString()
    instantText: Int64 -> string,             // Instant.ofEpochMilli(ms).toString()
    parseInstantMillis: string -> Option<Int64> // Instant.parse(s).toEpochMilli()
  )
}
