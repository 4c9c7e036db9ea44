/**
 * The connection statistics sink. Only the calls it receives are modelled:
 * timing is the sink's own business, so the timestamp it hands out is its
 * current `clock`, a value supplied from outside.
 */
module Stats {

  datatype StatsEvent =
    | ExecuteFunctionStarted(start: int)
    | ExecuteFunctionSendEnded(start: int, failed: bool)
    | ExecuteFunctionEnded(start: int, timedOut: bool, failed: bool)

  class ConnectionStats {
    var clock: int
    var events: seq<StatsEvent>

    method StartExecuteFunction() returns (start: int)
      modifies this
      ensures start == clock && clock == old(clock)
      ensures events == old(events) + [ExecuteFunctionStarted(start)]
    {
      start := clock;
      events := events + [ExecuteFunctionStarted(start)];
    }

    method EndExecuteFunctionSend(start: int, failed: bool)
      modifies this
      ensures clock == old(clock)
      ensures events == old(events) + [ExecuteFunctionSendEnded(start, failed)]
    {
      events := events + [ExecuteFunctionSendEnded(start, failed)];
    }

    method EndExecuteFunction(start: int, timedOut: bool, failed: bool)
      modifies this
      ensures clock == old(clock)
      ensures events == old(events) + [ExecuteFunctionEnded(start, timedOut, failed)]
    {
      events := events + [ExecuteFunctionEnded(start, timedOut, failed)];
    }
  }
}
