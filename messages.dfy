/**
 * The framed wire message of the client/server protocol: a message-type code,
 * a pre-size hint and an ordered list of typed parts.
 */
module Messages {
  import opened Wrappers

  /** A Java `byte`: signed, eight bits. */
  newtype int8 = x: int | -128 <= x < 128

  /**
   * Message-type codes. Their numeric values live in MessageType.java, which is
   * not part of this model; these are distinct placeholders, and nothing below
   * depends on them except that they differ.
   */
  const REPLY: int := 6
  const EXCEPTION: int := 2
  const EXECUTE_REGION_FUNCTION: int := 59
  const EXECUTE_REGION_FUNCTION_ERROR: int := 61

  /** A function as the client sees it: its id and the three semantic bits it declares. */
  datatype Function = Function(id: string, isHA: bool, hasResult: bool, optimizeForWrite: bool)

  /**
   * An application value handed to the object codec: null, a string, a function
   * instance, or any other object (identified by an opaque handle).
   */
  datatype Value =
    | Null
    | Text(text: string)
    | Fn(fn: Function)
    | Opaque(handle: nat)

  /**
   * One typed part. The object codec is opaque, so an object part records the
   * value it carries together with the add-method that produced it.
   */
  datatype Part =
    | Bytes(bytes: seq<int8>)
    | Str(str: string)
    | Obj(obj: Value)
    | StrOrObj(strOrObj: Value)
    | Int(n: int)

  /** A message being built or received. */
  class Message {
    var msgType: int
    /** The part-count hint the message was sized with. */
    var numberOfParts: nat
    var parts: seq<Part>

    /** A fresh message; its type stays Java's default 0 until it is set or received. */
    constructor (numberOfParts: nat)
      ensures this.msgType == 0
      ensures this.numberOfParts == numberOfParts
      ensures parts == []
    {
      this.msgType := 0;
      this.numberOfParts := numberOfParts;
      this.parts := [];
    }

    method SetMessageType(t: int)
      modifies this
      ensures msgType == t
      ensures numberOfParts == old(numberOfParts) && parts == old(parts)
    {
      msgType := t;
    }

    method AddBytesPart(b: seq<int8>)
      modifies this
      ensures parts == old(parts) + [Bytes(b)]
      ensures msgType == old(msgType) && numberOfParts == old(numberOfParts)
    {
      parts := parts + [Bytes(b)];
    }

    method AddStringPart(s: string)
      modifies this
      ensures parts == old(parts) + [Str(s)]
      ensures msgType == old(msgType) && numberOfParts == old(numberOfParts)
    {
      parts := parts + [Str(s)];
    }

    method AddObjPart(v: Value)
      modifies this
      ensures parts == old(parts) + [Obj(v)]
      ensures msgType == old(msgType) && numberOfParts == old(numberOfParts)
    {
      parts := parts + [Obj(v)];
    }

    method AddStringOrObjPart(v: Value)
      modifies this
      ensures parts == old(parts) + [StrOrObj(v)]
      ensures msgType == old(msgType) && numberOfParts == old(numberOfParts)
    {
      parts := parts + [StrOrObj(v)];
    }

    method AddIntPart(n: int)
      modifies this
      ensures parts == old(parts) + [Int(n)]
      ensures msgType == old(msgType) && numberOfParts == old(numberOfParts)
    {
      parts := parts + [Int(n)];
    }
  }

  /** The part at index i of a received part list, or nothing when there is none. */
  function GetPart(parts: seq<Part>, i: int): Option<Part>
  {
    if 0 <= i < |parts| then Some(parts[i]) else None
  }
}
