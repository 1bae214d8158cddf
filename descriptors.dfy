/** The part of kotlinx.serialization's SerialDescriptor that the engines consult:
    the container kind, the serial name, and for each element its name and the kind,
    serial name and nullability of its own descriptor. */
module Descriptors {

  import opened Wrappers

  datatype PrimitiveKind = BOOLEAN | BYTE | CHAR | SHORT | INT | LONG | FLOAT | DOUBLE | STRING

  datatype SerialKind =
    | CLASS | OBJECT | LIST | MAP        // StructureKind
    | SEALED | OPEN                      // PolymorphicKind
    | ENUM | CONTEXTUAL
    | Primitive(primitive: PrimitiveKind)

  /** `kind is StructureKind` */
  predicate IsStructureKind(k: SerialKind) {
    k == CLASS || k == OBJECT || k == LIST || k == MAP
  }

  /** `kind is PolymorphicKind` */
  predicate IsPolymorphicKind(k: SerialKind) {
    k == SEALED || k == OPEN
  }

  datatype ElementType = ElementType(kind: SerialKind, serialName: string, isNullable: bool)

  datatype Element = Element(name: string, elementType: ElementType)

  datatype Descriptor = Descriptor(kind: SerialKind, serialName: string, elements: seq<Element>)

  /** CompositeDecoder.DECODE_DONE and CompositeDecoder.UNKNOWN_NAME */
  const DECODE_DONE: int := -1
  const UNKNOWN_NAME: int := -3

  /** Position of the first element named `name` at or after `from`. */
  function IndexFrom(elements: seq<Element>, name: string, from: nat): (i: int)
    requires from <= |elements|
    ensures i == UNKNOWN_NAME || from <= i < |elements|
    ensures i == UNKNOWN_NAME <==> forall k :: from <= k < |elements| ==> elements[k].name != name
    ensures i != UNKNOWN_NAME ==>
      elements[i].name == name && forall k :: from <= k < i ==> elements[k].name != name
    decreases |elements| - from
  {
    if from == |elements| then UNKNOWN_NAME
    else if elements[from].name == name then from
    else IndexFrom(elements, name, from + 1)
  }

  /** SerialDescriptor.getElementIndex(name): the index of the element with that
      name, or UNKNOWN_NAME when there is none. */
  function ElementIndex(d: Descriptor, name: string): (i: int)
    ensures i == UNKNOWN_NAME || 0 <= i < |d.elements|
    ensures i == UNKNOWN_NAME <==> forall k :: 0 <= k < |d.elements| ==> d.elements[k].name != name
    ensures i != UNKNOWN_NAME ==> d.elements[i].name == name
  {
    IndexFrom(d.elements, name, 0)
  }

  /** SerialDescriptor.getElementDescriptor(index). A list descriptor has one element
      descriptor that serves every index and a map descriptor alternates its key and value
      descriptors, as kotlinx's list-like and map-like descriptors do; any other
      descriptor has one per element, and `None` is the IndexOutOfBoundsException. */
  function ElementTypeAt(d: Descriptor, index: int): (r: Option<ElementType>)
    ensures 0 <= index < |d.elements| ==> r.Some?
    ensures index < 0 ==> r == None
    ensures d.kind == LIST && |d.elements| == 1 && index >= 0 ==> r == Some(d.elements[0].elementType)
    ensures d.kind == MAP && |d.elements| == 2 && index >= 0 ==> r == Some(d.elements[index % 2].elementType)
  {
    if index < 0 then None
    else if d.kind == LIST && |d.elements| == 1 then Some(d.elements[0].elementType)
    else if d.kind == MAP && |d.elements| == 2 then Some(d.elements[index % 2].elementType)
    else if index < |d.elements| then Some(d.elements[index].elementType)
    else None
  }

  /** SerialDescriptor.getElementName(index) for class, object and polymorphic
      descriptors, the only ones the encoder asks. */
  function ElementNameAt(d: Descriptor, index: int): Option<string> {
    if 0 <= index < |d.elements| then Some(d.elements[index].name) else None
  }

  /** `descriptor.elementDescriptors.first().kind`; `None` is the NoSuchElementException. */
  function FirstElementKind(d: Descriptor): Option<SerialKind> {
    if |d.elements| > 0 then Some(d.elements[0].elementType.kind) else None
  }
}
