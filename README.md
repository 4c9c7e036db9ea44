# Fire-and-forget region function execution, modelled in Dafny

This project models the client side of executing a function on a server
region without waiting for its result (`ExecuteRegionFunctionNoAckOp` of the
GemFire/Geode client). It covers:

- **building the request message.** The two constructors of the operation
  append typed parts to a fresh `EXECUTE_REGION_FUNCTION` message in a fixed
  order: function-state byte, region name, function identity, arguments,
  member-mapped argument, flags byte, routing-key count, one part per routing
  key, and the removed-node count (always 0);
- **classifying the reply.** `processResponse` and `isErrorResponse` sort a
  reply by message type into: a plain reply, an exception that is logged and
  swallowed, a region-function error that is logged, and a fatal
  `InternalGemFireError` for any other type;
- the three **stats hooks** and the reply envelope of one attempt;
- the **exception wrapping** done by the two static `execute` entry points.

Files:

- `wrappers.dfy`: `Option`.
- `messages.dfy`: Java bytes (`int8`), the message-type codes, the values handed to
  the object codec, `Part`, and the `Message` class whose add-methods append parts.
- `stats.dfy`: the connection-statistics sink, as the record of the calls it receives.
- `request_layout.dfy`: the request layout as a pure function `RequestParts` of a
  `Request` record. Its inverse `ReadRequest` is proved to read every layout back,
  and to accept only layouts.
- `no_ack_op.dfy`: the operation class `ExecuteRegionFunctionNoAckOpImpl`. Its two
  constructors work step by step on a `Message`. The key loop is `AddRoutingKeys`.
  The module also holds the reply classification, the stats hooks and the entry points.

How the model stands in for what it cannot see:

- `getFunctionState` and `createFlags` are passed in, uninterpreted, in an
  `ExecutionCodec` value. Their bit layouts are not in the modelled code.
- `pool.execute` is passed in as a function from the request's parts to what it
  throws, if anything.
- The routing-key `Set` is iterated in an unspecified order. The loop takes any
  remaining element; the order actually used is kept as ghost state
  (`request.routingKeys`). It is proved to list every key of the set exactly once.
- The message-type codes are defined in MessageType.java, which is not part of this
  model. The model uses four distinct placeholder values, and every proof relies on
  nothing but their being distinct.

Three facts of the code the model keeps:

- There is exactly one designated error type, `EXECUTE_REGION_FUNCTION_ERROR`.
- The part-count hint is not just an upper bound: it equals the final part count
  (`RequestPartsLayout`).
- The fatal outcome is `InternalGemFireError`. This is a Java `Error`, so the
  `catch (Exception ex)` of `execute` does not wrap it; `HandlePoolOutcome`
  models that as `Propagated`.

## Model

| member | source | states |
|---|---|---|
| RequestLayout.RequestPartsLayout | gemfire-core/src/main/java/com/gemstone/gemfire/cache/client/internal/ExecuteRegionFunctionNoAckOp.java:113-144 | the request has exactly 8 + n parts, the pre-size hint; the header fields sit at offsets 0-6 in the fixed order; offset 6 is the int n; the n routing keys follow in order as string-or-object parts; the last part is the int 0 |
| RequestLayout.KeyPartsLength | gemfire-core/src/main/java/com/gemstone/gemfire/cache/client/internal/ExecuteRegionFunctionNoAckOp.java:140-143 | the key loop adds exactly one part per routing key |
| RequestLayout.KeyPartsAt | gemfire-core/src/main/java/com/gemstone/gemfire/cache/client/internal/ExecuteRegionFunctionNoAckOp.java:141-143 | the i-th key part is the string-or-object part of the i-th key |
| RequestLayout.KeyPartsSnoc | gemfire-core/src/main/java/com/gemstone/gemfire/cache/client/internal/ExecuteRegionFunctionNoAckOp.java:141-143 | one more loop iteration appends exactly one string-or-object part for that key |
| RequestLayout.ReadKeysOfKeyParts | gemfire-core/src/main/java/com/gemstone/gemfire/cache/client/internal/ExecuteRegionFunctionNoAckOp.java:140-143 | the key parts can be read back into the keys, in order |
| RequestLayout.KeyPartsOfReadKeys | gemfire-core/src/main/java/com/gemstone/gemfire/cache/client/internal/ExecuteRegionFunctionNoAckOp.java:140-143 | a run of parts that reads as keys is exactly those keys' parts |
| RequestLayout.ReadRequestOfRequestParts | gemfire-core/src/main/java/com/gemstone/gemfire/cache/client/internal/ExecuteRegionFunctionNoAckOp.java:122-144 | reading a built request gives back every field, and a key count that matches the key parts |
| RequestLayout.RequestPartsOfReadRequest | gemfire-core/src/main/java/com/gemstone/gemfire/cache/client/internal/ExecuteRegionFunctionNoAckOp.java:159-175 | a part list is accepted as a request only if it is exactly that request's layout |
| RequestLayout.RequestPartsInjective | gemfire-core/src/main/java/com/gemstone/gemfire/cache/client/internal/ExecuteRegionFunctionNoAckOp.java:122-144 | distinct requests never produce the same parts |
| ExecuteRegionFunctionNoAckOp.IterationOrderFacts | gemfire-core/src/main/java/com/gemstone/gemfire/cache/client/internal/ExecuteRegionFunctionNoAckOp.java:141-143 | an iteration order of the filter set has the set's size, holds only its elements, holds all of them, and repeats none |
| ExecuteRegionFunctionNoAckOp.AddRoutingKeys | gemfire-core/src/main/java/com/gemstone/gemfire/cache/client/internal/ExecuteRegionFunctionNoAckOp.java:141-143 | the loop appends one string-or-object part per key of the set, in an iteration order; the type and hint are unchanged |
| ExecuteRegionFunctionNoAckOp.ExecuteRegionFunctionNoAckOpImpl.ByFunction | gemfire-core/src/main/java/com/gemstone/gemfire/cache/client/internal/ExecuteRegionFunctionNoAckOp.java:111-145 | builds a fresh EXECUTE_REGION_FUNCTION message sized 8 + the filter size. The parts are the layout of the by-function request: state from the function's own bits, identity the function or its id, flags from createFlags(executeOnBucketSet, 0), keys in iteration order. The hasResult byte is not used. executeOnBucketSet is recorded |
| ExecuteRegionFunctionNoAckOp.ExecuteRegionFunctionNoAckOpImpl.ById | gemfire-core/src/main/java/com/gemstone/gemfire/cache/client/internal/ExecuteRegionFunctionNoAckOp.java:147-176 | same, for the by-id request: identity the id; has-result bit set iff the hasResult byte is 1 |
| ExecuteRegionFunctionNoAckOp.ByFunctionLayout | gemfire-core/src/main/java/com/gemstone/gemfire/cache/client/internal/ExecuteRegionFunctionNoAckOp.java:113-144 | the by-function message field by field. The part count is the hint. The state comes from isHA/hasResult/optimizeForWrite of the function. The identity is the function object if serialization is required, else its id. The flags are createFlags(executeOnBucketSet, 0). The count is the filter size. Each key part is a distinct filter element. The last part is 0 |
| ExecuteRegionFunctionNoAckOp.KeyPartsOfIterationOrder | gemfire-core/src/main/java/com/gemstone/gemfire/cache/client/internal/ExecuteRegionFunctionNoAckOp.java:140-144 | for routing keys sent in an iteration order of the filter set: 8 + the set size parts, the count at offset 6 is the set size, and the key parts are set elements, none repeated |
| ExecuteRegionFunctionNoAckOp.ByIdLayout | gemfire-core/src/main/java/com/gemstone/gemfire/cache/client/internal/ExecuteRegionFunctionNoAckOp.java:149-175 | the by-id message field by field: identity the id string; state getFunctionState(isHA, hasResult == 1, optimizeForWrite); the rest as above |
| ExecuteRegionFunctionNoAckOp.ByIdScenario | gemfire-core/src/main/java/com/gemstone/gemfire/cache/client/internal/ExecuteRegionFunctionNoAckOp.java:153-175 | by-id on R1/F1, hasResult 0, HA only, keys k1 and k2: 10 parts, the HA-only state, region R1, identity F1, the executor's arguments and member-mapped argument, flags of no bucket filter, count 2, the two keys as the two key parts, last 0 |
| ExecuteRegionFunctionNoAckOp.IsErrorResponse | gemfire-core/src/main/java/com/gemstone/gemfire/cache/client/internal/ExecuteRegionFunctionNoAckOp.java:202-205 | a type is an error response iff it is EXECUTE_REGION_FUNCTION_ERROR, which is neither REPLY nor EXCEPTION |
| ExecuteRegionFunctionNoAckOp.ProcessResponse | gemfire-core/src/main/java/com/gemstone/gemfire/cache/client/internal/ExecuteRegionFunctionNoAckOp.java:178-200 | processResponse returns null iff the type is REPLY, EXCEPTION with a part 0, or an error response. When null is returned, a warning was logged iff the type is not REPLY; for an exception it carries part 0, for an error response no throwable. It throws InternalGemFireError naming the type iff the type is none of the three. An EXCEPTION reply without part 0 fails on the null part |
| ExecuteRegionFunctionNoAckOp.ReplyReadsNoPart | gemfire-core/src/main/java/com/gemstone/gemfire/cache/client/internal/ExecuteRegionFunctionNoAckOp.java:181-183 | a plain reply returns null with no warning, whatever its parts |
| ExecuteRegionFunctionNoAckOp.OnlyFirstPartIsRead | gemfire-core/src/main/java/com/gemstone/gemfire/cache/client/internal/ExecuteRegionFunctionNoAckOp.java:185-196 | the outcome depends on the type and on part 0 only |
| ExecuteRegionFunctionNoAckOp.ClassificationIsPartition | gemfire-core/src/main/java/com/gemstone/gemfire/cache/client/internal/ExecuteRegionFunctionNoAckOp.java:180-196 | every reply gets exactly one outcome: null with no warning iff REPLY; null with a warning carrying part 0 iff EXCEPTION with a part, and then that warning holds exactly part 0 and nothing is rethrown; the null-part failure iff EXCEPTION without parts; null with a warning carrying no throwable iff an error response; InternalGemFireError naming the type iff none of these types |
| ExecuteRegionFunctionNoAckOp.ExecuteRegionFunctionNoAckOpImpl.StartAttempt | gemfire-core/src/main/java/com/gemstone/gemfire/cache/client/internal/ExecuteRegionFunctionNoAckOp.java:207-210 | records the start of a function execution with the sink and returns the sink's timestamp |
| ExecuteRegionFunctionNoAckOp.ExecuteRegionFunctionNoAckOpImpl.EndSendAttempt | gemfire-core/src/main/java/com/gemstone/gemfire/cache/client/internal/ExecuteRegionFunctionNoAckOp.java:212-215 | records the end of the send with the start timestamp and the op's failed flag |
| ExecuteRegionFunctionNoAckOp.ExecuteRegionFunctionNoAckOpImpl.EndAttempt | gemfire-core/src/main/java/com/gemstone/gemfire/cache/client/internal/ExecuteRegionFunctionNoAckOp.java:217-220 | records the end of the attempt with the start timestamp, the timed-out flag and the failed flag |
| ExecuteRegionFunctionNoAckOp.ExecuteRegionFunctionNoAckOpImpl.CreateResponseMessage | gemfire-core/src/main/java/com/gemstone/gemfire/cache/client/internal/ExecuteRegionFunctionNoAckOp.java:222-225 | a fresh, empty reply envelope sized for one part |
| ExecuteRegionFunctionNoAckOp.HandlePoolOutcome | gemfire-core/src/main/java/com/gemstone/gemfire/cache/client/internal/ExecuteRegionFunctionNoAckOp.java:70-79 | normal return iff the pool threw nothing. An exception becomes a FunctionException with that exception as its cause. Its message is the exception's message, or the fixed "Unexpected exception during function execution:" when there is none. An error is not caught and propagates unchanged |
| ExecuteRegionFunctionNoAckOp.ExecuteByFunction | gemfire-core/src/main/java/com/gemstone/gemfire/cache/client/internal/ExecuteRegionFunctionNoAckOp.java:59-80 | builds the by-function operation, hands its message to the pool, and ends as HandlePoolOutcome of what the pool threw |
| ExecuteRegionFunctionNoAckOp.ExecuteById | gemfire-core/src/main/java/com/gemstone/gemfire/cache/client/internal/ExecuteRegionFunctionNoAckOp.java:82-103 | the same for the by-id operation |
| Messages.Message.constructor | gemfire-core/src/main/java/com/gemstone/gemfire/cache/client/internal/ExecuteRegionFunctionNoAckOp.java:224 | a new message has the given part-count hint, no parts and the unset type 0 |
| Messages.Message.SetMessageType | gemfire-core/src/main/java/com/gemstone/gemfire/cache/client/internal/ExecuteRegionFunctionNoAckOp.java:113 | sets the type and keeps the parts and the hint |
| Messages.Message.AddBytesPart | gemfire-core/src/main/java/com/gemstone/gemfire/cache/client/internal/ExecuteRegionFunctionNoAckOp.java:122 | appends one bytes part and changes nothing else |
| Messages.Message.AddStringPart | gemfire-core/src/main/java/com/gemstone/gemfire/cache/client/internal/ExecuteRegionFunctionNoAckOp.java:123 | appends one string part and changes nothing else |
| Messages.Message.AddObjPart | gemfire-core/src/main/java/com/gemstone/gemfire/cache/client/internal/ExecuteRegionFunctionNoAckOp.java:130-131 | appends one object part and changes nothing else |
| Messages.Message.AddStringOrObjPart | gemfire-core/src/main/java/com/gemstone/gemfire/cache/client/internal/ExecuteRegionFunctionNoAckOp.java:125 | appends one string-or-object part and changes nothing else |
| Messages.Message.AddIntPart | gemfire-core/src/main/java/com/gemstone/gemfire/cache/client/internal/ExecuteRegionFunctionNoAckOp.java:140 | appends one int part and changes nothing else |
| Stats.ConnectionStats.StartExecuteFunction | gemfire-core/src/main/java/com/gemstone/gemfire/cache/client/internal/ExecuteRegionFunctionNoAckOp.java:209 | the sink records a start event and hands out its current timestamp |
| Stats.ConnectionStats.EndExecuteFunctionSend | gemfire-core/src/main/java/com/gemstone/gemfire/cache/client/internal/ExecuteRegionFunctionNoAckOp.java:214 | the sink records the end of the send with the given start and failed flag |
| Stats.ConnectionStats.EndExecuteFunction | gemfire-core/src/main/java/com/gemstone/gemfire/cache/client/internal/ExecuteRegionFunctionNoAckOp.java:219 | the sink records the end of the execution with the given start, timed-out and failed flags |

## Left out

- `pool.execute` is left out: server selection, connections, sending and retries (lines 68 and 91) are network I/O whose code is not part of this model. `ExecuteByFunction` and `ExecuteById` take the pool as a function from the request parts to what it throws.
- Debug logging (lines 65-66, 71-72, 88-89, 94-95) is not modelled; it is output only. The two warnings of `processResponse` are modelled as the `Warning` value the response carries.
- Stats timing is not modelled. The sink's clocks and counters belong to ConnectionStats, which is not part of this model; the sink only records the calls it receives.
- The shared attempt driver is not modelled: it calls the hooks in order and sets the failed and timed-out flags, and AbstractOp is not part of this model. So there is no lemma about the order in which the hooks fire.
- The bit encodings of `getFunctionState` and `createFlags` are not modelled; their code is not part of this model, so the no-collision and round-trip properties of those two encodings are not stated.
- Object serialization is not modelled: `addObjPart` and `addStringOrObjPart` are an opaque codec. A part records which add-method made it and the value it carries. The string-versus-object choice inside `addStringOrObjPart` is in Message.java, which is not part of this model.
- The SerializationException a constructor can throw when serialization fails is not modelled, because the codec is opaque.
- Int parts are unbounded integers: Java's 32-bit `int` is not modelled. So neither the overflow of `8 + size()` nor the saturation of `Set.size()` beyond 2^31 - 1 elements is modelled.
- Message's fixed-size part array and `Version.CURRENT` are not modelled; they are in Message.java and Version.java, which are not part of this model. Parts are an unbounded sequence, and the model proves that the part count equals the hint.
- `Messages.GetPart` assumes that Message.getPart (not part of this model) yields null past the last part. The model therefore reads an EXCEPTION reply with no parts as a NullPointerException. The model folds the `(Throwable)` cast of line 187 into the opaque codec that `getObject()` belongs to, so a ClassCastException from that cast is not modelled.
- `MessageType.getString` is not modelled; it is in MessageType.java, which is not part of this model. The model's `InternalGemFireError` carries the numeric type instead of its name.
- GfshParserParsingTest.java is not modelled: it tests a shell parser whose code is not part of this model.
- UnmodifiableException.java is not modelled: it is an exception class with no logic.
