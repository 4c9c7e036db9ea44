/**
 * The part layout of an execute-region-function request, as a pure function of
 * the fields it carries, together with the reading that recovers those fields.
 */
module RequestLayout {
  import opened Wrappers
  import opened Messages

  /** The number of removed nodes a no-ack request announces: always none. */
  const REMOVED_NODES_SIZE: int := 0

  /** The fields of one request, in wire order. */
  datatype Request = Request(
    functionState: int8,
    region: string,
    identity: Value,
    arguments: Value,
    memberMappedArgument: Value,
    flags: int8,
    routingKeys: seq<Value>)

  /** The pre-size hint a request with keyCount routing keys is created with. */
  function PartCountHint(keyCount: nat): nat
  {
    8 + keyCount
  }

  /** One string-or-object part per routing key, in the given order. */
  function KeyParts(keys: seq<Value>): seq<Part>
  {
    if keys == [] then [] else [StrOrObj(keys[0])] + KeyParts(keys[1..])
  }

  /** The seven parts that precede the routing keys. */
  function HeaderParts(d: Request): seq<Part>
  {
    [Bytes([d.functionState]), Str(d.region), StrOrObj(d.identity), Obj(d.arguments),
     Obj(d.memberMappedArgument), Bytes([d.flags]), Int(|d.routingKeys|)]
  }

  /** The whole request: header, one part per key, then the removed-node count. */
  function RequestParts(d: Request): seq<Part>
  {
    HeaderParts(d) + KeyParts(d.routingKeys) + [Int(REMOVED_NODES_SIZE)]
  }

  /** Reads a run of routing-key parts back into the keys they carry. */
  function ReadKeys(ps: seq<Part>): Option<seq<Value>>
  {
    if ps == [] then Some([])
    else if !ps[0].StrOrObj? then None
    else match ReadKeys(ps[1..])
      case None => None
      case Some(rest) => Some([ps[0].strOrObj] + rest)
  }

  /** True when a part is a one-byte bytes part. */
  predicate IsBytePart(p: Part)
  {
    p.Bytes? && |p.bytes| == 1
  }

  /**
   * Reads a part list as a request: it succeeds exactly when the list has the
   * request layout, with a key count that matches the key parts that follow.
   */
  function ReadRequest(ps: seq<Part>): Option<Request>
  {
    if |ps| < 8 then None
    else if !(IsBytePart(ps[0]) && ps[1].Str? && ps[2].StrOrObj? && ps[3].Obj? && ps[4].Obj?
              && IsBytePart(ps[5]) && ps[6] == Int(|ps| - 8) && ps[|ps| - 1] == Int(REMOVED_NODES_SIZE))
    then None
    else match ReadKeys(ps[7..|ps| - 1])
      case None => None
      case Some(keys) =>
        Some(Request(ps[0].bytes[0], ps[1].str, ps[2].strOrObj, ps[3].obj, ps[4].obj,
                     ps[5].bytes[0], keys))
  }

  lemma {:induction false} KeyPartsLength(keys: seq<Value>)
    ensures |KeyParts(keys)| == |keys|
  {
    if keys != [] {
      KeyPartsLength(keys[1..]);
    }
  }

  /** The i-th key part carries the i-th key. */
  lemma {:induction false} KeyPartsAt(keys: seq<Value>, i: nat)
    requires i < |keys|
    ensures |KeyParts(keys)| == |keys|
    ensures KeyParts(keys)[i] == StrOrObj(keys[i])
  {
    KeyPartsLength(keys);
    if i > 0 {
      KeyPartsAt(keys[1..], i - 1);
    }
  }

  /** Appending one key to the order appends one key part to the message. */
  lemma {:induction false} KeyPartsSnoc(keys: seq<Value>, k: Value)
    ensures KeyParts(keys + [k]) == KeyParts(keys) + [StrOrObj(k)]
  {
    if keys == [] {
      assert keys + [k] == [k];
    } else {
      assert (keys + [k])[1..] == keys[1..] + [k];
      KeyPartsSnoc(keys[1..], k);
    }
  }

  /**
   * The layout: the part count equals the pre-size hint; the header fields sit
   * at offsets 0 to 6; offset 6 holds the number of keys, which are the parts at
   * offsets 7 to 6 + n in order; the last part is the int 0.
   */
  lemma RequestPartsLayout(d: Request)
    ensures |RequestParts(d)| == PartCountHint(|d.routingKeys|)
    ensures RequestParts(d)[0] == Bytes([d.functionState])
    ensures RequestParts(d)[1] == Str(d.region)
    ensures RequestParts(d)[2] == StrOrObj(d.identity)
    ensures RequestParts(d)[3] == Obj(d.arguments)
    ensures RequestParts(d)[4] == Obj(d.memberMappedArgument)
    ensures RequestParts(d)[5] == Bytes([d.flags])
    ensures RequestParts(d)[6] == Int(|d.routingKeys|)
    ensures forall i :: 0 <= i < |d.routingKeys| ==> RequestParts(d)[7 + i] == StrOrObj(d.routingKeys[i])
    ensures RequestParts(d)[|RequestParts(d)| - 1] == Int(0)
  {
    var keys := d.routingKeys;
    KeyPartsLength(keys);
    forall i | 0 <= i < |keys|
      ensures RequestParts(d)[7 + i] == StrOrObj(keys[i])
    {
      KeyPartsAt(keys, i);
    }
  }

  /** Reading the key parts of a key list gives the list back. */
  lemma {:induction false} ReadKeysOfKeyParts(keys: seq<Value>)
    ensures ReadKeys(KeyParts(keys)) == Some(keys)
  {
    if keys != [] {
      ReadKeysOfKeyParts(keys[1..]);
      assert [keys[0]] + keys[1..] == keys;
    }
  }

  /** A run of parts that reads as keys is exactly the key parts of those keys. */
  lemma {:induction false} KeyPartsOfReadKeys(ps: seq<Part>, keys: seq<Value>)
    requires ReadKeys(ps) == Some(keys)
    ensures KeyParts(keys) == ps
  {
    if ps != [] {
      var rest := ReadKeys(ps[1..]).value;
      KeyPartsOfReadKeys(ps[1..], rest);
      assert keys[1..] == rest;
      assert [ps[0]] + ps[1..] == ps;
    }
  }

  /** Every request is read back from its parts. */
  lemma ReadRequestOfRequestParts(d: Request)
    ensures ReadRequest(RequestParts(d)) == Some(d)
  {
    var ps := RequestParts(d);
    RequestPartsLayout(d);
    assert ps[7..|ps| - 1] == KeyParts(d.routingKeys);
    ReadKeysOfKeyParts(d.routingKeys);
  }

  /** Every part list that reads as a request is that request's layout. */
  lemma RequestPartsOfReadRequest(ps: seq<Part>, d: Request)
    requires ReadRequest(ps) == Some(d)
    ensures RequestParts(d) == ps
  {
    KeyPartsOfReadKeys(ps[7..|ps| - 1], d.routingKeys);
    KeyPartsLength(d.routingKeys);
    assert ps[0] == Bytes([d.functionState]);
    assert ps[5] == Bytes([d.flags]);
    assert ps == ps[..7] + ps[7..|ps| - 1] + [ps[|ps| - 1]];
  }

  /** Two requests with the same parts are the same request. */
  lemma RequestPartsInjective(d1: Request, d2: Request)
    requires RequestParts(d1) == RequestParts(d2)
    ensures d1 == d2
  {
    ReadRequestOfRequestParts(d1);
    ReadRequestOfRequestParts(d2);
  }
}
