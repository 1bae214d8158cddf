/** The semantic kinds a serial name can be mapped to, and the primitive kinds each of
    them may annotate (enum `BsonKind` and its `supportedKinds`). */
module BsonKinds {

  import opened Descriptors

  datatype BsonKind = DATE | OBJECT_ID | UUID

  /** `supportedKinds`: a date is stored from a Long or a String, an object id and a
      UUID only from a String. */
  function SupportedKinds(k: BsonKind): seq<PrimitiveKind> {
    match k
    case DATE => [LONG, STRING]
    case OBJECT_ID => [STRING]
    case UUID => [STRING]
  }

  /** `serializer.descriptor.kind in bsonKind.supportedKinds` */
  predicate Supports(k: BsonKind, kind: SerialKind) {
    kind.Primitive? && kind.primitive in SupportedKinds(k)
  }

  /** Which primitives each semantic kind accepts: a date a Long or a String, an object
      id and a UUID a String only, and no structured kind at all. */
  lemma SupportedKindsExactly(kind: SerialKind)
    ensures Supports(DATE, kind) <==> kind == Primitive(LONG) || kind == Primitive(STRING)
    ensures Supports(OBJECT_ID, kind) <==> kind == Primitive(STRING)
    ensures Supports(UUID, kind) <==> kind == Primitive(STRING)
  {
  }
}
