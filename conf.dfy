/** The immutable configuration shared by both engines, with its defaults. */
module BsonConfig {

  import opened BsonKinds

  /** The default class discriminator. */
  const CLASS_DISCRIMINATOR: string := "__type"

  /** A configuration value. `serializersModule` is not modelled. `encodeDefaults` is read
      by the builder and the encoder; it defaults to false, so default-valued
      properties are left out of encoded documents. */
  datatype BsonConf = BsonConf(
    classDiscriminator: string,
    bsonTypeMappings: map<string, BsonKind>,
    allowStructuredMapKeys: bool,
    implicitIntegerConversion: bool,
    encodeDefaults: bool
  )

  /** `BsonConf()` with every parameter at its default. */
  function DefaultConf(): BsonConf {
    BsonConf(
      classDiscriminator := CLASS_DISCRIMINATOR,
      bsonTypeMappings := map[],
      allowStructuredMapKeys := false,
      implicitIntegerConversion := true,
      encodeDefaults := false
    )
  }

  /** The defaults: discriminator "__type", no type mappings, structured map keys
      refused, implicit integer conversion on, default-valued properties omitted. */
  lemma DefaultsAsDeclared()
    ensures DefaultConf().classDiscriminator == "__type"
    ensures DefaultConf().bsonTypeMappings == map[]
    ensures !DefaultConf().allowStructuredMapKeys
    ensures DefaultConf().implicitIntegerConversion
    ensures !DefaultConf().encodeDefaults
  {
  }
}
