/** The validating configuration builder and the `Bson { ... }` entry point. */
module Bson {

  import opened Wrappers
  import opened Errors
  import opened Descriptors
  import opened BsonKinds
  import opened BsonConfig

  /** A character that cannot appear in a BSON field name used as discriminator. */
  predicate IllegalFieldChar(c: char) {
    c == '$' || c == '.'
  }

  /** `s.contains("[$.]".toRegex())`, as a left-to-right scan. */
  function HasIllegalFieldChar(s: string): (r: bool)
    ensures r <==> exists i :: 0 <= i < |s| && IllegalFieldChar(s[i])
  {
    if |s| == 0 then false
    else if IllegalFieldChar(s[0]) then true
    else
      var rest := HasIllegalFieldChar(s[1..]);
      assert forall i :: 1 <= i < |s| ==> s[i] == s[1..][i - 1];
      assert rest ==> exists i :: 1 <= i < |s| && IllegalFieldChar(s[i]);
      rest
  }

  /** `build()`: rejects a discriminator holding `$` or `.`, otherwise returns a
      configuration holding exactly the builder's settings. */
  function BuildConf(settings: BsonConf): (r: Result<BsonConf, Error>)
    ensures r.Failure? <==> exists i :: 0 <= i < |settings.classDiscriminator| && IllegalFieldChar(settings.classDiscriminator[i])
    ensures r.Failure? ==> r.error == IllegalArgument(IllegalDiscriminatorCharacter(settings.classDiscriminator))
    ensures r.Success? ==> r.value == settings
  {
    if HasIllegalFieldChar(settings.classDiscriminator) then
      Failure(IllegalArgument(IllegalDiscriminatorCharacter(settings.classDiscriminator)))
    else
      Success(settings)
  }

  /** `addTypeMapping(serializer, bsonKind)` on the mapping table: the serializer's kind
      must be one the semantic kind supports, and the mapping is then stored under the
      serializer's serial name, replacing any earlier one. */
  function AddTypeMappingTo(mappings: map<string, BsonKind>, d: Descriptor, k: BsonKind): (r: Result<map<string, BsonKind>, Error>)
    ensures r.Failure? <==> !(d.kind.Primitive? && d.kind.primitive in SupportedKinds(k))
    ensures r.Failure? ==> r.error == IllegalArgument(UnsupportedMapping(d.kind, k))
    ensures r.Success? ==> d.serialName in r.value && r.value[d.serialName] == k
    ensures r.Success? ==> forall n :: n != d.serialName ==> (n in r.value <==> n in mappings)
    ensures r.Success? ==> forall n :: n in mappings && n != d.serialName ==> r.value[n] == mappings[n]
  {
    if Supports(k, d.kind) then Success(mappings[d.serialName := k])
    else Failure(IllegalArgument(UnsupportedMapping(d.kind, k)))
  }

  /** The mutable builder, started from a configuration's values. */
  class BsonBuilder {
    var classDiscriminator: string
    var allowStructuredMapKeys: bool
    var implicitIntegerConversion: bool
    var encodeDefaults: bool
    var bsonTypeMappings: map<string, BsonKind>

    /** The configuration the builder currently describes. */
    function Settings(): BsonConf
      reads this
    {
      BsonConf(classDiscriminator, bsonTypeMappings, allowStructuredMapKeys, implicitIntegerConversion, encodeDefaults)
    }

    constructor (conf: BsonConf)
      ensures Settings() == conf
    {
      classDiscriminator := conf.classDiscriminator;
      allowStructuredMapKeys := conf.allowStructuredMapKeys;
      implicitIntegerConversion := conf.implicitIntegerConversion;
      encodeDefaults := conf.encodeDefaults;
      bsonTypeMappings := conf.bsonTypeMappings;
    }

    /** The `require` runs before the table is touched, so a rejected mapping changes
        nothing; an accepted one overwrites the entry for its serial name. */
    method AddTypeMapping(d: Descriptor, k: BsonKind) returns (r: Result<(), Error>)
      modifies this
      ensures r.Failure? <==> !Supports(k, d.kind)
      ensures r.Failure? ==> r.error == IllegalArgument(UnsupportedMapping(d.kind, k)) && Settings() == old(Settings())
      ensures r.Success? ==> Settings() == old(Settings()).(bsonTypeMappings := old(bsonTypeMappings)[d.serialName := k])
    {
      if !(d.kind.Primitive? && d.kind.primitive in SupportedKinds(k)) {
        return Failure(IllegalArgument(UnsupportedMapping(d.kind, k)));
      }
      bsonTypeMappings := bsonTypeMappings[d.serialName := k];
      r := Success(());
    }

    method Build() returns (r: Result<BsonConf, Error>)
      ensures r == BuildConf(Settings())
    {
      if HasIllegalFieldChar(classDiscriminator) {
        return Failure(IllegalArgument(IllegalDiscriminatorCharacter(classDiscriminator)));
      }
      r := Success(BsonConf(
        classDiscriminator := classDiscriminator,
        bsonTypeMappings := bsonTypeMappings,
        allowStructuredMapKeys := allowStructuredMapKeys,
        implicitIntegerConversion := implicitIntegerConversion,
        encodeDefaults := encodeDefaults));
    }
  }

  /** One statement of a `Bson { ... }` builder block. */
  datatype BuilderAction =
    | SetClassDiscriminator(discriminator: string)
    | SetAllowStructuredMapKeys(allow: bool)
    | SetImplicitIntegerConversion(implicit: bool)
    | SetEncodeDefaults(encode: bool)
    | AddMapping(serializer: Descriptor, bsonKind: BsonKind)

  function ApplyAction(settings: BsonConf, a: BuilderAction): Result<BsonConf, Error> {
    match a
    case SetClassDiscriminator(s) => Success(settings.(classDiscriminator := s))
    case SetAllowStructuredMapKeys(b) => Success(settings.(allowStructuredMapKeys := b))
    case SetImplicitIntegerConversion(b) => Success(settings.(implicitIntegerConversion := b))
    case SetEncodeDefaults(b) => Success(settings.(encodeDefaults := b))
    case AddMapping(d, k) =>
      var m :- AddTypeMappingTo(settings.bsonTypeMappings, d, k);
      Success(settings.(bsonTypeMappings := m))
  }

  /** The builder block run statement by statement; the first exception aborts it. */
  function ApplyActions(settings: BsonConf, actions: seq<BuilderAction>): Result<BsonConf, Error>
    decreases |actions|
  {
    if actions == [] then Success(settings)
    else
      var before :- ApplyActions(settings, actions[..|actions| - 1]);
      ApplyAction(before, actions[|actions| - 1])
  }

  /** The configuration `Bson(builderAction)` ends up with. */
  function BsonOf(actions: seq<BuilderAction>): Result<BsonConf, Error> {
    var settings :- ApplyActions(DefaultConf(), actions);
    BuildConf(settings)
  }

  /** `Bson(builderAction)`: a builder started from the defaults, the block run on it,
      then `build()`. The `Bson` format object that wraps the result is not modelled. */
  method Bson(actions: seq<BuilderAction>) returns (r: Result<BsonConf, Error>)
    ensures r == BsonOf(actions)
  {
    var builder := new BsonBuilder(DefaultConf());
    var i := 0;
    while i < |actions|
      invariant 0 <= i <= |actions|
      invariant ApplyActions(DefaultConf(), actions[..i]) == Success(builder.Settings())
    {
      assert actions[..i + 1][..i] == actions[..i];
      ghost var before := builder.Settings();
      match actions[i] {
      case SetClassDiscriminator(s) =>
        builder.classDiscriminator := s;
      case SetAllowStructuredMapKeys(b) =>
        builder.allowStructuredMapKeys := b;
      case SetImplicitIntegerConversion(b) =>
        builder.implicitIntegerConversion := b;
      case SetEncodeDefaults(b) =>
        builder.encodeDefaults := b;
      case AddMapping(d, k) =>
        var added := builder.AddTypeMapping(d, k);
        if added.Failure? {
          ApplyActionsStopsAtFailure(DefaultConf(), actions, i + 1);
          return Failure(added.error);
        }
      }
      assert ApplyAction(before, actions[i]) == Success(builder.Settings());
      i := i + 1;
    }
    assert actions[..i] == actions;
    r := builder.Build();
  }

  /** Once a statement of the block fails, the whole block fails with its error. */
  lemma {:induction false} ApplyActionsStopsAtFailure(settings: BsonConf, actions: seq<BuilderAction>, k: nat)
    requires 0 < k <= |actions|
    requires ApplyActions(settings, actions[..k]).Failure?
    ensures ApplyActions(settings, actions) == ApplyActions(settings, actions[..k])
    decreases |actions|
  {
    if k < |actions| {
      var init := actions[..|actions| - 1];
      assert init[..k] == actions[..k];
      ApplyActionsStopsAtFailure(settings, init, k);
    } else {
      assert actions[..k] == actions;
    }
  }

  /** `Bson { }` yields the default configuration, whose discriminator "__type"
      passes the builder's check. */
  lemma DefaultBsonIsDefaultConf()
    ensures BsonOf([]) == Success(DefaultConf())
    ensures BsonOf([]).value.classDiscriminator == "__type"
  {
    var s := CLASS_DISCRIMINATOR;
    assert forall i :: 0 <= i < |s| ==> !IllegalFieldChar(s[i]);
  }

  /** The discriminators "$type" and "type.." are refused when the block is built. */
  lemma IllegalDiscriminatorsRejected()
    ensures BsonOf([SetClassDiscriminator("$type")]) == Failure(IllegalArgument(IllegalDiscriminatorCharacter("$type")))
    ensures BsonOf([SetClassDiscriminator("type..")]) == Failure(IllegalArgument(IllegalDiscriminatorCharacter("type..")))
  {
    var a, b := "$type", "type..";
    assert IllegalFieldChar(a[0]);
    assert IllegalFieldChar(b[4]);
    assert [SetClassDiscriminator(a)][..0] == [];
    assert [SetClassDiscriminator(b)][..0] == [];
  }

  /** Two mappings registered under the same serial name: the later one wins. */
  lemma LastMappingWins(d1: Descriptor, k1: BsonKind, d2: Descriptor, k2: BsonKind)
    requires d1.serialName == d2.serialName
    requires Supports(k1, d1.kind) && Supports(k2, d2.kind)
    ensures ApplyActions(DefaultConf(), [AddMapping(d1, k1), AddMapping(d2, k2)])
         == Success(DefaultConf().(bsonTypeMappings := map[d2.serialName := k2]))
  {
    var actions := [AddMapping(d1, k1), AddMapping(d2, k2)];
    var c := DefaultConf();
    assert actions[..1] == [AddMapping(d1, k1)];
    assert actions[..1][..0] == [];
    var first := c.(bsonTypeMappings := map[d1.serialName := k1]);
    assert ApplyActions(c, actions[..1]) == Success(first);
    assert first.bsonTypeMappings[d2.serialName := k2] == map[d2.serialName := k2];
  }

  /** A builder block holding a mapping its kind does not support fails, wherever in the
      block that mapping stands. */
  lemma {:induction false} UnsupportedMappingAborts(actions: seq<BuilderAction>, i: nat)
    requires i < |actions| && actions[i].AddMapping?
    requires !Supports(actions[i].bsonKind, actions[i].serializer.kind)
    ensures BsonOf(actions).Failure?
  {
    var prefix := actions[..i + 1];
    assert prefix[..|prefix| - 1] == actions[..i];
    assert prefix[|prefix| - 1] == actions[i];
    assert ApplyActions(DefaultConf(), prefix).Failure?;
    ApplyActionsStopsAtFailure(DefaultConf(), actions, i + 1);
  }
}
