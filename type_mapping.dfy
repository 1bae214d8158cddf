/** The per-element lookup both engines perform after every element index: the
    element's serial name, with a trailing "?" removed when the element is nullable,
    is looked up in the configured type mappings. */
module TypeMapping {

  import opened Wrappers
  import opened Descriptors
  import opened BsonKinds

  /** Kotlin `removeSuffix`. */
  function RemoveSuffix(s: string, suffix: string): (r: string)
    ensures |suffix| <= |s| && s[|s| - |suffix|..] == suffix ==> r + suffix == s
    ensures !(|suffix| <= |s| && s[|s| - |suffix|..] == suffix) ==> r == s
  {
    if |suffix| <= |s| && s[|s| - |suffix|..] == suffix then s[..|s| - |suffix|] else s
  }

  /** The name an element's mapping is registered under. */
  function LookupName(e: ElementType): string {
    if e.isNullable then RemoveSuffix(e.serialName, "?") else e.serialName
  }

  /** `conf.bsonTypeMappings[...]` for the element: the semantic kind used by the next
      primitive read or write. */
  function MappingFor(mappings: map<string, BsonKind>, e: ElementType): (r: Option<BsonKind>)
    ensures r.Some? <==> LookupName(e) in mappings
    ensures r.Some? ==> r.value == mappings[LookupName(e)]
  {
    var name := LookupName(e);
    if name in mappings then Some(mappings[name]) else None
  }

  /** A nullable element named `n?` shares the mapping registered for `n`, while a
      non-nullable element is looked up under its exact serial name. */
  lemma NullableNameNormalized(mappings: map<string, BsonKind>, k: SerialKind, n: string)
    ensures MappingFor(mappings, ElementType(k, n + "?", true))
         == MappingFor(mappings, ElementType(k, n, false))
    ensures MappingFor(mappings, ElementType(k, n + "?", false))
         == (if n + "?" in mappings then Some(mappings[n + "?"]) else None)
  {
    var s := n + "?";
    assert s[|s| - 1..] == "?";
    assert s[..|s| - 1] == n;
  }

  /** Registering a mapping for one serial name changes the lookup of exactly the
      elements whose lookup name is that serial name. */
  lemma MappingAffectsOnlyItsName(mappings: map<string, BsonKind>, name: string, k: BsonKind, e: ElementType)
    ensures MappingFor(mappings[name := k], e)
         == if LookupName(e) == name then Some(k) else MappingFor(mappings, e)
  {
  }
}
