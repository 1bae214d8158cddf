/** The token backend on the decoding side: org.bson's AbstractBsonReader as driven by a
    BsonDocumentReader, reduced to a cursor over a flat token stream. Whether the reader
    is inside a document or an array is read off the next token: a field name only occurs
    inside a document. Every misuse the library reports with a
    BsonInvalidOperationException is a `Failure(InvalidOperation(_))` here. */
module BsonReader {

  import opened Wrappers
  import opened Tokens
  import opened Errors

  /** AbstractBsonReader.State (SCOPE_DOCUMENT and CLOSED are never reached here). */
  datatype ReaderState = INITIAL | TYPE | NAME | VALUE | END_OF_DOCUMENT | END_OF_ARRAY | DONE

  /** `pos` is the next token to consume: in NAME state the current element's field name,
      in VALUE state its value. `currentBsonType` is null until the first element is
      seen, and `depth` counts the containers opened and not yet closed. */
  datatype Reader = Reader(
    tokens: seq<Token>,
    pos: nat,
    state: ReaderState,
    currentBsonType: Option<BsonType>,
    depth: nat
  )

  /** A BsonDocumentReader over a whole document. */
  function NewReader(tokens: seq<Token>): Reader {
    Reader(tokens, 0, INITIAL, None, 0)
  }

  /** The state after a value or a container end: TYPE inside a container, DONE at the top. */
  function NextState(depth: nat): ReaderState {
    if depth > 0 then TYPE else DONE
  }

  /** The reader waits for the next element and stands on a field name followed by a value
      (a value token or the start of a document or an array). */
  predicate NamedAt(r: Reader) {
    && r.state == TYPE && r.pos + 1 < |r.tokens|
    && r.tokens[r.pos].Name? && ValueTypeOf(r.tokens[r.pos + 1]).Some?
  }

  /** readBsonType(): move to the next element and report its type. At the end of a
      document or an array it reports END_OF_DOCUMENT and leaves `currentBsonType` as it was. */
  function ReadBsonType(r: Reader): (res: Result<(BsonType, Reader), Error>)
    ensures res.Success? ==> res.value.1.tokens == r.tokens && res.value.1.pos == r.pos && res.value.1.depth == r.depth
    ensures res.Success? ==> res.value.1.state in {VALUE, NAME, ReaderState.END_OF_DOCUMENT, END_OF_ARRAY}
    ensures res.Success? ==>
      (res.value.0 == BsonType.END_OF_DOCUMENT <==> res.value.1.state in {ReaderState.END_OF_DOCUMENT, END_OF_ARRAY})
    ensures res.Success? && res.value.0 != BsonType.END_OF_DOCUMENT ==> res.value.1.currentBsonType == Some(res.value.0)
    ensures res.Success? && res.value.0 == BsonType.END_OF_DOCUMENT ==> res.value.1.currentBsonType == r.currentBsonType
  {
    if r.state == INITIAL || r.state == DONE then
      Success((DOCUMENT, r.(state := VALUE, currentBsonType := Some(DOCUMENT))))
    else if r.state != TYPE then
      Failure(InvalidOperation(InvalidState))
    else if r.pos >= |r.tokens| then
      Failure(InvalidOperation(Malformed))
    else
      match r.tokens[r.pos]
      case Name(_) =>
        if r.pos + 1 < |r.tokens| && ValueTypeOf(r.tokens[r.pos + 1]).Some? then
          var t := ValueTypeOf(r.tokens[r.pos + 1]).value;
          Success((t, r.(state := NAME, currentBsonType := Some(t))))
        else
          Failure(InvalidOperation(Malformed))
      case EndDocument => Success((BsonType.END_OF_DOCUMENT, r.(state := ReaderState.END_OF_DOCUMENT)))
      case EndArray => Success((BsonType.END_OF_DOCUMENT, r.(state := END_OF_ARRAY)))
      case StartDocument => Success((DOCUMENT, r.(state := VALUE, currentBsonType := Some(DOCUMENT))))
      case StartArray => Success((ARRAY, r.(state := VALUE, currentBsonType := Some(ARRAY))))
      case Value(v) => Success((TypeOf(v), r.(state := VALUE, currentBsonType := Some(TypeOf(v)))))
  }

  /** readBsonType() called for its effect only. */
  function AdvanceType(r: Reader): Result<Reader, Error> {
    var p :- ReadBsonType(r);
    Success(p.1)
  }

  /** readName(): the current element's field name; reads the type first in TYPE state. */
  function ReadName(r: Reader): (res: Result<(string, Reader), Error>)
    ensures res.Success? ==> res.value.1.state == VALUE && res.value.1.tokens == r.tokens
  {
    var r1 :- if r.state == TYPE then AdvanceType(r) else Success(r);
    if r1.state != NAME then
      Failure(InvalidOperation(InvalidState))
    else if r1.pos < |r1.tokens| && r1.tokens[r1.pos].Name? then
      Success((r1.tokens[r1.pos].name, r1.(pos := r1.pos + 1, state := VALUE)))
    else
      Failure(InvalidOperation(Malformed))
  }

  /** verifyBSONType(): get to the value of the current element and check its type. */
  function VerifyBsonType(r: Reader, t: BsonType): (res: Result<Reader, Error>)
    ensures res.Success? ==> res.value.state == VALUE && res.value.currentBsonType == Some(t)
  {
    var r1 :- if r.state == INITIAL || r.state == TYPE then AdvanceType(r) else Success(r);
    var r2 :- if r1.state == NAME then
                (if r1.pos < |r1.tokens| && r1.tokens[r1.pos].Name?
                 then Success(r1.(pos := r1.pos + 1, state := VALUE))
                 else Failure(InvalidOperation(Malformed)))
              else Success(r1);
    if r2.state != VALUE then Failure(InvalidOperation(InvalidState))
    else if r2.currentBsonType != Some(t) then Failure(InvalidOperation(TypeMismatch(t, r2.currentBsonType)))
    else Success(r2)
  }

  /** readInt32(), readInt64(), readString(), readBoolean(), readDouble(), readDateTime(),
      readObjectId(), readBinaryData() and readNull(): the value of the current element,
      which must have type `t`. */
  function ReadValue(r: Reader, t: BsonType): (res: Result<(BsonValue, Reader), Error>)
    ensures res.Success? ==> TypeOf(res.value.0) == t && res.value.1.tokens == r.tokens
    ensures res.Success? && r.state == VALUE ==>
      r.pos < |r.tokens| && r.tokens[r.pos] == Value(res.value.0) && res.value.1.pos == r.pos + 1
  {
    var r1 :- VerifyBsonType(r, t);
    if r1.pos < |r1.tokens| && r1.tokens[r1.pos].Value? && TypeOf(r1.tokens[r1.pos].v) == t then
      Success((r1.tokens[r1.pos].v, r1.(pos := r1.pos + 1, state := NextState(r1.depth))))
    else
      Failure(InvalidOperation(Malformed))
  }

  /** readStartDocument() */
  function ReadStartDocument(r: Reader): (res: Result<Reader, Error>)
    ensures res.Success? ==> res.value.state == TYPE && res.value.depth == r.depth + 1 && res.value.tokens == r.tokens
  {
    var r1 :- VerifyBsonType(r, DOCUMENT);
    if r1.pos < |r1.tokens| && r1.tokens[r1.pos] == StartDocument then
      Success(r1.(pos := r1.pos + 1, depth := r1.depth + 1, state := TYPE))
    else
      Failure(InvalidOperation(Malformed))
  }

  /** readStartArray() */
  function ReadStartArray(r: Reader): (res: Result<Reader, Error>)
    ensures res.Success? ==> res.value.state == TYPE && res.value.depth == r.depth + 1 && res.value.tokens == r.tokens
  {
    var r1 :- VerifyBsonType(r, ARRAY);
    if r1.pos < |r1.tokens| && r1.tokens[r1.pos] == StartArray then
      Success(r1.(pos := r1.pos + 1, depth := r1.depth + 1, state := TYPE))
    else
      Failure(InvalidOperation(Malformed))
  }

  /** readEndDocument(): only at the end of a document. */
  function ReadEndDocument(r: Reader): (res: Result<Reader, Error>)
    ensures res.Success? ==> r.depth > 0 && res.value.depth == r.depth - 1 && res.value.tokens == r.tokens
  {
    var r1 :- if r.state == TYPE then AdvanceType(r) else Success(r);
    if r1.state != ReaderState.END_OF_DOCUMENT then
      Failure(InvalidOperation(InvalidState))
    else if r1.pos < |r1.tokens| && r1.tokens[r1.pos] == EndDocument && r1.depth > 0 then
      Success(r1.(pos := r1.pos + 1, depth := r1.depth - 1, state := NextState(r1.depth - 1)))
    else
      Failure(InvalidOperation(Malformed))
  }

  /** readEndArray(): only at the end of an array. */
  function ReadEndArray(r: Reader): (res: Result<Reader, Error>)
    ensures res.Success? ==> r.depth > 0 && res.value.depth == r.depth - 1 && res.value.tokens == r.tokens
  {
    var r1 :- if r.state == TYPE then AdvanceType(r) else Success(r);
    if r1.state != END_OF_ARRAY then
      Failure(InvalidOperation(InvalidState))
    else if r1.pos < |r1.tokens| && r1.tokens[r1.pos] == EndArray && r1.depth > 0 then
      Success(r1.(pos := r1.pos + 1, depth := r1.depth - 1, state := NextState(r1.depth - 1)))
    else
      Failure(InvalidOperation(Malformed))
  }

  /** At an element without a field name (inside an array) the type is that of its token. */
  lemma TypeOfValueToken(r: Reader, v: BsonValue)
    requires r.state == TYPE && r.pos < |r.tokens| && r.tokens[r.pos] == Value(v)
    ensures ReadBsonType(r) == Success((TypeOf(v), r.(state := VALUE, currentBsonType := Some(TypeOf(v)))))
  {
  }

  /** At a named element the type is that of the token after the name. */
  lemma TypeOfNamedToken(r: Reader, name: string, v: BsonValue)
    requires r.state == TYPE && r.pos + 1 < |r.tokens| && r.tokens[r.pos] == Name(name) && r.tokens[r.pos + 1] == Value(v)
    ensures ReadBsonType(r) == Success((TypeOf(v), r.(state := NAME, currentBsonType := Some(TypeOf(v)))))
  {
  }
}
