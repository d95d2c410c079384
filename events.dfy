/** The leveled log events the monitor emits, one constructor per kind of
    message in monitoring.py. Text formatting (`%.2f`, timestamps) is not
    modelled; each event carries the data its message interpolates. */
module Events {
  import opened Values

  datatype Level = Info | Warning | Error

  /** A configuration line number as reported in diagnostics. */
  datatype LineRef = Line(n: nat) | Unknown

  /** The aggregation key: `urlparse(url).hostname`, which may be `None`. */
  type Domain = Option<string>

  /** One line of the per-cycle availability summary. */
  datatype Row = Row(domain: Domain, availability: real, up: nat, total: nat)

  /** Exceptions that escape `load_config` (the record is not a mapping, or
      the document is not iterable at all). */
  datatype Fault = NotIterable | NotAMapping(index: nat)

  datatype Message =
    | ConfigNotAList
    | EndpointMissingUrl(line: LineRef)
    | JsonBodyUnparsable(body: string)
    | MissingUrlForEndpoint(name: Value)
    | StatusUp(url: string, elapsedMs: real)
    | StatusDownSlow(url: string, elapsedMs: real)
    | StatusDownCode(url: string, statusCode: int)
    | StatusDownError(url: string, error: string)
    | EmptyConfig
    | MonitorTriggered(endpoints: nat)
    | SkippingEndpoint(name: Value)
    | SummaryHeader
    | SummaryLine(row: Row)
    | UnexpectedError(fault: Fault)
    | StoppedByUser

  datatype Event = Event(level: Level, message: Message)
}
