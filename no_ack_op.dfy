/**
 * Executing a function on a server region without waiting for its result
 * (fire and forget): building the request, classifying the reply, the stats
 * hooks of one attempt, and the exception wrapping of the two entry points.
 */
module ExecuteRegionFunctionNoAckOp {
  import opened Wrappers
  import opened Messages
  import opened Stats
  import opened RequestLayout

  /**
   * The two bit-packing helpers the constructors call. Their encodings are not
   * part of this model, so they are given, uninterpreted, by the caller:
   * getFunctionState(isHA, hasResult, optimizeForWrite) and
   * createFlags(executeOnBucketSet, isReExecute).
   */
  datatype ExecutionCodec = ExecutionCodec(
    getFunctionState: (bool, bool, bool) -> int8,
    createFlags: (bool, int8) -> int8)

  /** What the region function executor hands to the operation. */
  datatype ServerRegionFunctionExecutor = ServerRegionFunctionExecutor(
    filter: set<Value>,
    arguments: Value,
    memberMappedArgument: Value,
    isFnSerializationReqd: bool,
    executeOnBucketSet: bool)

  /** A no-ack request is never a re-execution. */
  const IS_RE_EXECUTE: int8 := 0

  /** order lists the elements of s once each: an iteration order of the set. */
  ghost predicate IsIterationOrder(order: seq<Value>, s: set<Value>)
  {
    multiset(order) == multiset(s)
  }

  lemma IterationOrderFacts(order: seq<Value>, s: set<Value>)
    requires IsIterationOrder(order, s)
    ensures |order| == |s|
    ensures forall i :: 0 <= i < |order| ==> order[i] in s
    ensures forall x :: x in s ==> x in order
    ensures forall i, j :: 0 <= i < j < |order| ==> order[i] != order[j]
  {
    assert |multiset(order)| == |order|;
    forall i | 0 <= i < |order|
      ensures order[i] in s
    {
      assert order[i] in multiset(order);
    }
    forall x | x in s
      ensures x in order
    {
      assert x in multiset(s);
    }
    forall i, j | 0 <= i < j < |order|
      ensures order[i] != order[j]
    {
      if order[i] == order[j] {
        DuplicateCountsTwice(order, i, j);
        assert false;
      }
    }
  }

  lemma DuplicateCountsTwice(order: seq<Value>, i: nat, j: nat)
    requires i < j < |order| && order[i] == order[j]
    ensures multiset(order)[order[i]] >= 2
  {
    var x := order[i];
    assert order == order[..j] + order[j..];
    assert x in multiset(order[..j]) && x in multiset(order[j..]) by {
      assert order[..j][i] == x && order[j..][0] == x;
    }
  }

  /** The request the by-function constructor builds, given the keys' iteration order. */
  function ByFunctionRequest(region: string, fn: Function,
                             executor: ServerRegionFunctionExecutor, codec: ExecutionCodec,
                             keys: seq<Value>): Request
  {
    Request(
      codec.getFunctionState(fn.isHA, fn.hasResult, fn.optimizeForWrite),
      region,
      if executor.isFnSerializationReqd then Fn(fn) else Text(fn.id),
      executor.arguments,
      executor.memberMappedArgument,
      codec.createFlags(executor.executeOnBucketSet, IS_RE_EXECUTE),
      keys)
  }

  /** The request the by-id constructor builds, given the keys' iteration order. */
  function ByIdRequest(region: string, functionId: string,
                       executor: ServerRegionFunctionExecutor, hasResult: int8,
                       isHA: bool, optimizeForWrite: bool, codec: ExecutionCodec,
                       keys: seq<Value>): Request
  {
    Request(
      codec.getFunctionState(isHA, hasResult == 1, optimizeForWrite),
      region,
      Text(functionId),
      executor.arguments,
      executor.memberMappedArgument,
      codec.createFlags(executor.executeOnBucketSet, IS_RE_EXECUTE),
      keys)
  }

  /** Appends one string-or-object part per routing key, in the set's iteration order. */
  method AddRoutingKeys(m: Message, routingObjects: set<Value>) returns (ghost order: seq<Value>)
    modifies m
    ensures IsIterationOrder(order, routingObjects)
    ensures m.parts == old(m.parts) + KeyParts(order)
    ensures m.msgType == old(m.msgType) && m.numberOfParts == old(m.numberOfParts)
  {
    order := [];
    var remaining := routingObjects;
    while remaining != {}
      invariant remaining <= routingObjects
      invariant multiset(order) + multiset(remaining) == multiset(routingObjects)
      invariant m.parts == old(m.parts) + KeyParts(order)
      invariant m.msgType == old(m.msgType) && m.numberOfParts == old(m.numberOfParts)
      decreases remaining
    {
      var key :| key in remaining;
      m.AddStringOrObjPart(key);
      KeyPartsSnoc(order, key);
      assert multiset(remaining) == multiset(remaining - {key}) + multiset{key};
      order := order + [key];
      remaining := remaining - {key};
    }
  }

  class ExecuteRegionFunctionNoAckOpImpl {
    /** The request message; it is built once, by the constructor. */
    const message: Message
    const executeOnBucketSet: bool
    /** The request the message holds, routing keys in the order they were sent. */
    ghost const request: Request
    /** Attempt state kept by the attempt driver, which is not part of this model. */
    var failed: bool
    var timedOut: bool

    ghost predicate Valid()
      reads this, message
    {
      && message.msgType == EXECUTE_REGION_FUNCTION
      && message.parts == RequestParts(request)
      && message.numberOfParts == |message.parts|
    }

    /** Builds the request for a function instance. The hasResult byte is not used. */
    constructor ByFunction(region: string, fn: Function,
                           executor: ServerRegionFunctionExecutor, hasResult: int8,
                           codec: ExecutionCodec)
      ensures Valid() && fresh(message)
      ensures message.numberOfParts == PartCountHint(|executor.filter|)
      ensures IsIterationOrder(request.routingKeys, executor.filter)
      ensures request == ByFunctionRequest(region, fn, executor, codec, request.routingKeys)
      ensures executeOnBucketSet == executor.executeOnBucketSet
      ensures !failed && !timedOut
    {
      var functionState := codec.getFunctionState(fn.isHA, fn.hasResult,
                                                   fn.optimizeForWrite);
      var routingObjects := executor.filter;
      var args := executor.arguments;
      var memberMappedArg := executor.memberMappedArgument;
      var m := new Message(PartCountHint(|executor.filter|));
      m.SetMessageType(EXECUTE_REGION_FUNCTION);
      m.AddBytesPart([functionState]);
      m.AddStringPart(region);
      ghost var start := m.parts;
      if executor.isFnSerializationReqd {
        m.AddStringOrObjPart(Fn(fn));
      } else {
        m.AddStringOrObjPart(Text(fn.id));
      }
      assert m.parts == start + [StrOrObj(if executor.isFnSerializationReqd then Fn(fn) else Text(fn.id))];
      m.AddObjPart(args);
      m.AddObjPart(memberMappedArg);
      var onBucketSet := executor.executeOnBucketSet;
      var flags := codec.createFlags(onBucketSet, IS_RE_EXECUTE);
      m.AddBytesPart([flags]);
      m.AddIntPart(|routingObjects|);
      ghost var header := m.parts;
      assert header == [Bytes([functionState]), Str(region),
                        StrOrObj(if executor.isFnSerializationReqd then Fn(fn) else Text(fn.id)),
                        Obj(args), Obj(memberMappedArg), Bytes([flags]), Int(|routingObjects|)];
      ghost var order := AddRoutingKeys(m, routingObjects);
      IterationOrderFacts(order, routingObjects);
      KeyPartsLength(order);
      m.AddIntPart(REMOVED_NODES_SIZE);
      ghost var d := ByFunctionRequest(region, fn, executor, codec, order);
      assert header == HeaderParts(d);
      assert m.parts == RequestParts(d);
      message := m;
      executeOnBucketSet := onBucketSet;
      request := d;
      failed, timedOut := false, false;
    }

    /** Builds the request for a function known to the server by its id. */
    constructor ById(region: string, functionId: string,
                     executor: ServerRegionFunctionExecutor, hasResult: int8,
                     isHA: bool, optimizeForWrite: bool, codec: ExecutionCodec)
      ensures Valid() && fresh(message)
      ensures message.numberOfParts == PartCountHint(|executor.filter|)
      ensures IsIterationOrder(request.routingKeys, executor.filter)
      ensures request == ByIdRequest(region, functionId, executor, hasResult, isHA,
                                     optimizeForWrite, codec, request.routingKeys)
      ensures executeOnBucketSet == executor.executeOnBucketSet
      ensures !failed && !timedOut
    {
      var functionState := codec.getFunctionState(isHA, hasResult == 1, optimizeForWrite);
      var routingObjects := executor.filter;
      var args := executor.arguments;
      var memberMappedArg := executor.memberMappedArgument;
      var m := new Message(PartCountHint(|executor.filter|));
      m.SetMessageType(EXECUTE_REGION_FUNCTION);
      m.AddBytesPart([functionState]);
      m.AddStringPart(region);
      m.AddStringOrObjPart(Text(functionId));
      m.AddObjPart(args);
      m.AddObjPart(memberMappedArg);
      var onBucketSet := executor.executeOnBucketSet;
      var flags := codec.createFlags(onBucketSet, IS_RE_EXECUTE);
      m.AddBytesPart([flags]);
      m.AddIntPart(|routingObjects|);
      ghost var header := m.parts;
      assert header == [Bytes([functionState]), Str(region), StrOrObj(Text(functionId)),
                        Obj(args), Obj(memberMappedArg), Bytes([flags]), Int(|routingObjects|)];
      ghost var order := AddRoutingKeys(m, routingObjects);
      IterationOrderFacts(order, routingObjects);
      KeyPartsLength(order);
      m.AddIntPart(REMOVED_NODES_SIZE);
      ghost var d := ByIdRequest(region, functionId, executor, hasResult, isHA, optimizeForWrite,
                                 codec, order);
      assert header == HeaderParts(d);
      assert m.parts == RequestParts(d);
      message := m;
      executeOnBucketSet := onBucketSet;
      request := d;
      failed, timedOut := false, false;
    }

    method StartAttempt(stats: ConnectionStats) returns (start: int)
      modifies stats
      ensures start == stats.clock && stats.clock == old(stats.clock)
      ensures stats.events == old(stats.events) + [ExecuteFunctionStarted(start)]
    {
      start := stats.StartExecuteFunction();
    }

    /** Reports the end of the send, with whether the attempt has failed so far. */
    method EndSendAttempt(stats: ConnectionStats, start: int)
      modifies stats
      ensures stats.clock == old(stats.clock)
      ensures stats.events == old(stats.events) + [ExecuteFunctionSendEnded(start, failed)]
    {
      stats.EndExecuteFunctionSend(start, failed);
    }

    /** Reports the end of the attempt, with whether it timed out and whether it failed. */
    method EndAttempt(stats: ConnectionStats, start: int)
      modifies stats
      ensures stats.clock == old(stats.clock)
      ensures stats.events == old(stats.events) + [ExecuteFunctionEnded(start, timedOut, failed)]
    {
      stats.EndExecuteFunction(start, timedOut, failed);
    }

    /** The envelope a reply is received into: sized for one part, still empty. */
    method CreateResponseMessage() returns (m: Message)
      ensures fresh(m)
      ensures m.numberOfParts == 1 && m.parts == [] && m.msgType == 0
    {
      m := new Message(1);
    }
  }

  // ---------------------------------------------------------------------------
  // Reply classification

  /** The warning logged when a no-has-result execution receives an exception or an error. */
  datatype Warning = NoHasResultReceivedException(cause: Option<Part>)

  /** What processResponse throws instead of returning. */
  datatype Thrown =
    | InternalGemFireError(unexpectedType: int)
    | NullPointerException

  /** The result of processResponse: null (after an optional warning), or a throw. */
  datatype Response =
    | ReturnedNull(warning: Option<Warning>)
    | Threw(error: Thrown)

  /** The region-function error type is the only error response. */
  function IsErrorResponse(msgType: int): (b: bool)
    ensures b <==> msgType == EXECUTE_REGION_FUNCTION_ERROR
    ensures b ==> msgType != REPLY && msgType != EXCEPTION
  {
    msgType == EXECUTE_REGION_FUNCTION_ERROR
  }

  /** The reply types the no-ack contract absorbs. */
  predicate IsExpectedReply(msgType: int)
  {
    msgType == REPLY || msgType == EXCEPTION || IsErrorResponse(msgType)
  }

  /**
   * Classifies a reply by its type. A plain reply returns null and reads no
   * part; an exception reply logs the throwable in part 0 and returns null; an
   * error reply logs a warning and returns null; any other type is fatal.
   */
  function ProcessResponse(msgType: int, parts: seq<Part>): (r: Response)
    ensures r.ReturnedNull? <==> IsExpectedReply(msgType) && (msgType == EXCEPTION ==> |parts| > 0)
    ensures r.ReturnedNull? ==> (r.warning.None? <==> msgType == REPLY)
    ensures r == Threw(InternalGemFireError(msgType)) <==> !IsExpectedReply(msgType)
    ensures r == Threw(NullPointerException) <==> msgType == EXCEPTION && parts == []
    ensures msgType == EXCEPTION && |parts| > 0 ==> r == ReturnedNull(Some(NoHasResultReceivedException(Some(parts[0]))))
    ensures IsErrorResponse(msgType) ==> r == ReturnedNull(Some(NoHasResultReceivedException(None)))
  {
    if msgType == REPLY then
      ReturnedNull(None)
    else
      var part := GetPart(parts, 0);
      if msgType == EXCEPTION then
        if part.None? then Threw(NullPointerException)
        else ReturnedNull(Some(NoHasResultReceivedException(part)))
      else if IsErrorResponse(msgType) then
        ReturnedNull(Some(NoHasResultReceivedException(None)))
      else
        Threw(InternalGemFireError(msgType))
  }

  /** A plain reply is classified without looking at any part. */
  lemma ReplyReadsNoPart(parts1: seq<Part>, parts2: seq<Part>)
    ensures ProcessResponse(REPLY, parts1) == ProcessResponse(REPLY, parts2) == ReturnedNull(None)
  {
  }

  /** Only the first part of a reply can influence its classification. */
  lemma OnlyFirstPartIsRead(msgType: int, parts1: seq<Part>, parts2: seq<Part>)
    requires GetPart(parts1, 0) == GetPart(parts2, 0)
    ensures ProcessResponse(msgType, parts1) == ProcessResponse(msgType, parts2)
  {
  }

  /**
   * Every reply is classified in exactly one way, each outcome matching its
   * class of types: a plain reply returns null silently; an exception reply
   * logs part 0 and returns null, never rethrowing it (or, without a part 0,
   * fails on the null part); an error reply
   * logs a warning without a throwable; any other type is fatal.
   */
  lemma ClassificationIsPartition(msgType: int, parts: seq<Part>)
    ensures var r := ProcessResponse(msgType, parts);
      && (r == ReturnedNull(None) <==> msgType == REPLY)
      && ((r.ReturnedNull? && r.warning.Some? && r.warning.value.cause.Some?)
          <==> msgType == EXCEPTION && |parts| > 0)
      && (msgType == EXCEPTION && |parts| > 0
          ==> r == ReturnedNull(Some(NoHasResultReceivedException(Some(parts[0])))))
      && (r == Threw(NullPointerException) <==> msgType == EXCEPTION && parts == [])
      && (r == ReturnedNull(Some(NoHasResultReceivedException(None))) <==> IsErrorResponse(msgType))
      && (r == Threw(InternalGemFireError(msgType)) <==> !IsExpectedReply(msgType))
  {
  }

  // ---------------------------------------------------------------------------
  // The message each constructor builds, field by field

  /**
   * When a request's keys are an iteration order of a set, the request has
   * 8 + |s| parts, offset 6 holds |s|, and the parts between the count and the
   * trailing int are elements of s, each at most once.
   */
  lemma KeyPartsOfIterationOrder(d: Request, s: set<Value>)
    requires IsIterationOrder(d.routingKeys, s)
    ensures var p := RequestParts(d);
      && |p| == PartCountHint(|s|)
      && p[6] == Int(|s|)
      && (forall i :: 7 <= i < |p| - 1 ==> p[i].StrOrObj? && p[i].strOrObj in s)
      && (forall i, j :: 7 <= i < j < |p| - 1 ==> p[i] != p[j])
  {
    var keys := d.routingKeys;
    RequestPartsLayout(d);
    IterationOrderFacts(keys, s);
    var p := RequestParts(d);
    forall i | 7 <= i < |p| - 1
      ensures p[i].StrOrObj? && p[i].strOrObj in s
    {
      assert p[7 + (i - 7)] == StrOrObj(keys[i - 7]);
    }
    forall i, j | 7 <= i < j < |p| - 1
      ensures p[i] != p[j]
    {
      assert p[7 + (i - 7)] == StrOrObj(keys[i - 7]);
      assert p[7 + (j - 7)] == StrOrObj(keys[j - 7]);
    }
  }

  /**
   * The by-function request: the state bits come from the function itself, the
   * identity is the function when it must be serialized and its id otherwise,
   * the flags depend only on executeOnBucketSet, offset 6 holds the number of
   * routing keys, which follow once each, and the last part is the int 0.
   */
  lemma ByFunctionLayout(region: string, fn: Function,
                         executor: ServerRegionFunctionExecutor, codec: ExecutionCodec,
                         keys: seq<Value>)
    requires IsIterationOrder(keys, executor.filter)
    ensures var p := RequestParts(ByFunctionRequest(region, fn, executor, codec, keys));
      && |p| == PartCountHint(|executor.filter|)
      && p[0] == Bytes([codec.getFunctionState(fn.isHA, fn.hasResult, fn.optimizeForWrite)])
      && p[1] == Str(region)
      && p[2] == StrOrObj(if executor.isFnSerializationReqd then Fn(fn) else Text(fn.id))
      && p[3] == Obj(executor.arguments)
      && p[4] == Obj(executor.memberMappedArgument)
      && p[5] == Bytes([codec.createFlags(executor.executeOnBucketSet, 0)])
      && p[6] == Int(|executor.filter|)
      && (forall i :: 7 <= i < |p| - 1 ==> p[i].StrOrObj? && p[i].strOrObj in executor.filter)
      && (forall i, j :: 7 <= i < j < |p| - 1 ==> p[i] != p[j])
      && p[|p| - 1] == Int(0)
  {
    var d := ByFunctionRequest(region, fn, executor, codec, keys);
    RequestPartsLayout(d);
    KeyPartsOfIterationOrder(d, executor.filter);
  }

  /**
   * The by-id request: the identity is always the id, and the has-result bit is
   * set exactly when the hasResult byte is 1; otherwise as for a function.
   */
  lemma ByIdLayout(region: string, functionId: string,
                   executor: ServerRegionFunctionExecutor, hasResult: int8,
                   isHA: bool, optimizeForWrite: bool, codec: ExecutionCodec,
                   keys: seq<Value>)
    requires IsIterationOrder(keys, executor.filter)
    ensures var p := RequestParts(ByIdRequest(region, functionId, executor, hasResult, isHA,
                                               optimizeForWrite, codec, keys));
      && |p| == PartCountHint(|executor.filter|)
      && p[0] == Bytes([codec.getFunctionState(isHA, hasResult == 1, optimizeForWrite)])
      && p[1] == Str(region)
      && p[2] == StrOrObj(Text(functionId))
      && p[3] == Obj(executor.arguments)
      && p[4] == Obj(executor.memberMappedArgument)
      && p[5] == Bytes([codec.createFlags(executor.executeOnBucketSet, 0)])
      && p[6] == Int(|executor.filter|)
      && (forall i :: 7 <= i < |p| - 1 ==> p[i].StrOrObj? && p[i].strOrObj in executor.filter)
      && (forall i, j :: 7 <= i < j < |p| - 1 ==> p[i] != p[j])
      && p[|p| - 1] == Int(0)
  {
    var d := ByIdRequest(region, functionId, executor, hasResult, isHA, optimizeForWrite, codec, keys);
    RequestPartsLayout(d);
    KeyPartsOfIterationOrder(d, executor.filter);
  }

  /**
   * A by-id request for region "R1", function "F1", hasResult 0, HA only, and
   * routing keys "k1" and "k2": the state is the HA-only one, the flags those of
   * no bucket filter, the key count 2, and the two key parts are the two keys.
   */
  lemma ByIdScenario(executor: ServerRegionFunctionExecutor, codec: ExecutionCodec,
                     keys: seq<Value>)
    requires executor.filter == {Text("k1"), Text("k2")} && !executor.executeOnBucketSet
    requires IsIterationOrder(keys, executor.filter)
    ensures var p := RequestParts(ByIdRequest("R1", "F1", executor, 0, true, false, codec, keys));
      && |p| == 10
      && p[0] == Bytes([codec.getFunctionState(true, false, false)])
      && p[1] == Str("R1")
      && p[2] == StrOrObj(Text("F1"))
      && p[3] == Obj(executor.arguments)
      && p[4] == Obj(executor.memberMappedArgument)
      && p[5] == Bytes([codec.createFlags(false, 0)])
      && p[6] == Int(2)
      && {p[7], p[8]} == {StrOrObj(Text("k1")), StrOrObj(Text("k2"))}
      && p[9] == Int(0)
  {
    assert Text("k1") != Text("k2") by {
      assert "k1"[1] != "k2"[1];
    }
    assert |executor.filter| == 2;
    ByIdLayout("R1", "F1", executor, 0, true, false, codec, keys);
    IterationOrderFacts(keys, executor.filter);
    var d := ByIdRequest("R1", "F1", executor, 0, true, false, codec, keys);
    RequestPartsLayout(d);
    assert keys[0] != keys[1];
  }

  // ---------------------------------------------------------------------------
  // The two entry points

  /** What the pool may throw: a checked or runtime exception, or an error. */
  datatype Throwable =
    | Exception(message: Option<string>)
    | Error(message: Option<string>)

  datatype FunctionException = FunctionException(message: string, cause: Throwable)

  /** How an entry point ends. */
  datatype ExecuteResult =
    | Completed
    | Raised(exception: FunctionException)
    | Propagated(error: Throwable)

  const UNEXPECTED_EXCEPTION_MESSAGE: string := "Unexpected exception during function execution:"

  /**
   * What an entry point does with the outcome of pool.execute: an exception is
   * wrapped in a FunctionException that keeps it as the cause and keeps its
   * message, or names an unexpected exception when it has none; an error is not
   * caught and propagates unchanged.
   */
  function HandlePoolOutcome(thrown: Option<Throwable>): (r: ExecuteResult)
    ensures r.Completed? <==> thrown.None?
    ensures r.Raised? <==> thrown.Some? && thrown.value.Exception?
    ensures r.Raised? ==> r.exception.cause == thrown.value
    ensures r.Raised? && thrown.value.message.Some? ==> r.exception.message == thrown.value.message.value
    ensures r.Raised? && thrown.value.message.None? ==> r.exception.message == UNEXPECTED_EXCEPTION_MESSAGE
    ensures r.Propagated? ==> r.error == thrown.value
  {
    match thrown
    case None => Completed
    case Some(ex) =>
      if ex.Error? then Propagated(ex)
      else if ex.message.Some? then Raised(FunctionException(ex.message.value, ex))
      else Raised(FunctionException(UNEXPECTED_EXCEPTION_MESSAGE, ex))
  }

  /**
   * Executes a function instance on a region. The pool, which sends the request
   * and retries, is given as what it throws for the request it is handed.
   */
  method ExecuteByFunction(pool: seq<Part> -> Option<Throwable>, region: string, fn: Function,
                           executor: ServerRegionFunctionExecutor, hasResult: int8,
                           codec: ExecutionCodec)
    returns (op: ExecuteRegionFunctionNoAckOpImpl, r: ExecuteResult)
    ensures fresh(op) && fresh(op.message) && op.Valid()
    ensures IsIterationOrder(op.request.routingKeys, executor.filter)
    ensures op.request == ByFunctionRequest(region, fn, executor, codec, op.request.routingKeys)
    ensures r == HandlePoolOutcome(pool(op.message.parts))
  {
    op := new ExecuteRegionFunctionNoAckOpImpl.ByFunction(region, fn, executor, hasResult, codec);
    r := HandlePoolOutcome(pool(op.message.parts));
  }

  /** Executes a function known to the server by its id on a region. */
  method ExecuteById(pool: seq<Part> -> Option<Throwable>, region: string, functionId: string,
                     executor: ServerRegionFunctionExecutor, hasResult: int8,
                     isHA: bool, optimizeForWrite: bool, codec: ExecutionCodec)
    returns (op: ExecuteRegionFunctionNoAckOpImpl, r: ExecuteResult)
    ensures fresh(op) && fresh(op.message) && op.Valid()
    ensures IsIterationOrder(op.request.routingKeys, executor.filter)
    ensures op.request == ByIdRequest(region, functionId, executor, hasResult, isHA,
                                      optimizeForWrite, codec, op.request.routingKeys)
    ensures r == HandlePoolOutcome(pool(op.message.parts))
  {
    op := new ExecuteRegionFunctionNoAckOpImpl.ById(region, functionId, executor, hasResult,
                                                    isHA, optimizeForWrite, codec);
    r := HandlePoolOutcome(pool(op.message.parts));
  }
}
