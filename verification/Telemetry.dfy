/** The values the agent's components exchange. */
module Telemetry {
  import opened Wrappers

  /** One event of a telemetry request. An event parsed from an upload carries the raw log line; one emitted by the ACS does not. */
  datatype EventItem = EventItem(
    cwmpId: string, timestamp: string, moduleTag: string, eventType: string,
    severity: string, message: string, raw: Option<string>, dedupKey: string)

  /** A telemetry request; metrics and alarms are kept as the texts they marshal to. */
  datatype Request = Request(metrics: seq<string>, events: seq<EventItem>, alarms: seq<string>)

  /** A marshalled request: what it carries and how many bytes it takes. */
  datatype Body = Body(request: Request, len: nat)

  /** One version of an uploaded file. Paths are base names: there is one watch directory. */
  datatype Stamp = Stamp(size: int, modTime: int)
  datatype Mark = Mark(path: string, stamp: Stamp)

  /** An upload's mark and the index just past its last event. */
  datatype EventMark = EventMark(mark: Mark, end: nat)

  function Elements<T>(s: seq<T>): set<T> {
    set x | x in s
  }

  function MarksOf(ms: seq<EventMark>): seq<Mark> {
    seq(|ms|, i requires 0 <= i < |ms| => ms[i].mark)
  }
}
