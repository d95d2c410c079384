# A verified model of the `monitoring.py` availability monitor

`monitoring.py` reads a YAML list of HTTP endpoints and runs cycles of health checks against them. Each endpoint has a `url` and may have a `name`, `method`, `headers` and `body`. After every cycle it logs, per host, the percentage of endpoints found UP.

This project models the logic of the monitor with the network, the clock and the parsers abstracted away, and proves its properties.

- **`HealthChecker`** models `check_health`:
  - An endpoint without a URL is DOWN and no request is made.
  - A transport exception is DOWN.
  - Otherwise the endpoint is UP exactly for a 2xx code answered within 500 ms.
  - A DOWN answer names its reason: "slow" when over 500 ms, and the status code otherwise.
  - The transport's answer is an input (`Outcome`).
  - The request the checker would issue (method, URL, headers, `json=`/`data=` payload, 5 s timeout) is part of the result.
- **`BodyCodec`** models `parse_body` and the `json=`/`data=` argument choice.
  - `json.loads` is an oracle `loads: string -> Option<Value>`, which is `None` where Python raises.
  - The header key `content-type` is matched exactly; only its value is lower-cased.
- **`ConfigValidator`** models `load_config` after the YAML has been parsed:
  - the advisory "not a list" error;
  - the validation loop, which reports every record lacking `url` at a line found by text search, first for `- name: <name>`, then for `- url: <url>`, and otherwise `unknown`;
  - the configuration returned unchanged.
- **`MonitorLoop`** models `monitor_endpoints`:
  - The class `DomainStats` is the insertion-ordered `domain_stats` dictionary.
  - `RunCycle` is one `while True` iteration, without the sleep.
  - `RunSession` runs one cycle per element of `rounds`.
  - `MonitorEndpoints` is the whole function. Configuration faults are logged and re-raised, an empty configuration stops at once, and otherwise cycles run until the interrupt, which comes after the last round.
  - `urlparse(url).hostname` is an oracle `hostname: string -> Option<string>`.
- **`CycleReport`** covers what one cycle reports over any configuration, plus three concrete configurations.
- **`Values`**, **`Text`** and **`Events`** hold what the modules above share:
  - `Values`: the Python values a configuration or a decoded body holds (null, booleans, integers, strings, lists, string-keyed mappings) and their truthiness;
  - `Text`: `str.lower`, `str.find`, `in` and `str.count`;
  - `Events`: the leveled log events, one constructor per message kind.

In these places the code as written does not do what its structure suggests; the model follows the code:
- A record that is not a mapping gets no diagnostic. `endpoint.get` runs first (monitoring.py:34) and raises, so the `isinstance` diagnostic at lines 40-41 is never reached. The model reports this as the fault `NotAMapping(k)`. The monitor logs it as an unexpected error and re-raises it.
- A non-empty string or mapping given as the whole document fails at its first element for the same reason. A document that cannot be iterated (null, a bool, a number) fails with `NotIterable`.
- A check can log two lines, not one: the JSON-decoding warning from `parse_body`, then the status line.

## Model

| member | source | states |
|---|---|---|
| Values.Truthy | monitoring.py:56-134 | a value is falsy exactly when it is `None`, `False`, `0`, or an empty string, list or mapping (the `not` tests at lines 56, 82, 121 and 134, and `and parsed_body` at line 97) |
| Text.Lower | monitoring.py:59 | lower-casing keeps the length, maps every character through ASCII lower-casing and leaves no capital letter |
| Text.FindFrom | monitoring.py:34 | the result is -1 exactly when the pattern does not occur at or after `start`; otherwise it is an occurrence with none before it from `start` |
| Text.Find | monitoring.py:34-36 | `find` is -1 exactly when the pattern never occurs, and otherwise the leftmost occurrence |
| Text.Contains | monitoring.py:61 | substring test holds exactly when the pattern occurs somewhere |
| Text.CountChar | monitoring.py:38 | `count` of one character is its multiplicity in the string, at most the length |
| Text.CountCharPrefix | monitoring.py:38 | a prefix holds no more newlines than the whole text, so line numbers stay within the document |
| HealthChecker.HeadersOf | monitoring.py:78 | the headers of a probed record are a mapping whose `content-type`, if present, is a string |
| HealthChecker.Classify | monitoring.py:103-111 | healthy exactly for 2xx within 500 ms; slow exactly over 500 ms; bad status exactly within 500 ms with a non-2xx code |
| HealthChecker.StatusOf | monitoring.py:103-114 | an answer is UP exactly when it is a reply with a 2xx code within 500 ms; a transport error is DOWN |
| HealthChecker.StatusEvent | monitoring.py:104-113 | the status line is a warning; it is `UP` exactly for an UP answer, "slow" exactly over 500 ms, "status code" exactly in time with a non-2xx code, "error" exactly for a transport error; each line carries the URL and its elapsed time, status code or error text |
| HealthChecker.CheckHealth | monitoring.py:75-114 | UP exactly for a URL and a 2xx reply within 500 ms; no request exactly when the URL is falsy, and then DOWN with the missing-URL error only; with a URL the log is the body warnings followed by one status line that says UP exactly when the result is UP |
| HealthChecker.IssuedRequest | monitoring.py:76-99 | the request carries the record's method (default GET), URL and headers and the 5 s timeout; a falsy body sends nothing, a body under a non-JSON content type goes out as `data=` unchanged, a decodable JSON-typed string goes out decoded as `json=`, and any other body under a JSON content type goes out as `json=` unchanged |
| HealthChecker.DownReason | monitoring.py:106-111 | a DOWN reply is logged as slow when over 500 ms and with its status code otherwise |
| BodyCodec.ContentType | monitoring.py:59 | the content type is empty without the exact `content-type` key; otherwise it is that header's value lower-cased character by character, with no capital letter left |
| BodyCodec.IsJsonContent | monitoring.py:61-97 | JSON content exactly when `application/json` occurs in the lower-cased content type, which needs the exact `content-type` key |
| BodyCodec.ParseBody | monitoring.py:55-72 | a falsy body gives `None`; a body that is not a JSON-typed string comes back unchanged; a JSON-typed string gives the decoded value, or itself plus one warning when it does not decode; a warning is logged exactly in that last case |
| BodyCodec.SelectPayload | monitoring.py:96-97 | at most one of `json=` and `data=` is set; `json=` is the parsed body exactly under a JSON content type; `data=` is set exactly when not JSON and the parsed body is truthy, and is then the parsed body |
| BodyCodec.OutboundPayload | monitoring.py:56-97 | what each configured body becomes on the wire, case by case |
| BodyCodec.JsonBodyRoundTrip | monitoring.py:61-65 | a decodable JSON-typed string body parses to exactly `json.loads` of its text |
| BodyCodec.CapitalisedHeaderKeyIsIgnored | monitoring.py:59-97 | a `Content-Type` key is not the `content-type` key, so a JSON string body goes out verbatim as `data=` |
| BodyCodec.HeaderValueCaseIsIgnored | monitoring.py:59-61 | a content type `Application/JSON` counts as JSON |
| ConfigValidator.NamePattern | monitoring.py:34 | the pattern is `- name: ` followed by the rendered name, or just `- name: ` for a record without one |
| ConfigValidator.UrlPattern | monitoring.py:36 | the pattern is `- url: ` followed by the rendered URL, or just `- url: ` for a record without one |
| ConfigValidator.LineAt | monitoring.py:38 | the line of an offset is 1-based and at most one more than the number of newlines |
| ConfigValidator.EntryLine | monitoring.py:34-38 | the reported line is that of the first `- name: <name>` if it occurs, else that of the first `- url: <url>`; it is `unknown` exactly when neither occurs |
| ConfigValidator.FirstNonMapping | monitoring.py:33-34 | every element before the index is a mapping and the element at it (if any) is not |
| ConfigValidator.MissingCount | monitoring.py:43 | the count of records lacking `url` is the number of indices whose record lacks the key, at most the number of records |
| ConfigValidator.MissingUrlDiagnostics | monitoring.py:43-44 | one error per record lacking the `url` key, and nothing else |
| ConfigValidator.MissingUrlEvent | monitoring.py:43-44 | the diagnostic is an error naming the record's line, which is `unknown` exactly when neither pattern occurs and otherwise within the document |
| ConfigValidator.MissingUrlDiagnosticsOnePerRecord | monitoring.py:33-44 | the record at index j lacking `url` gets its own diagnostic with its own line, in record order |
| ConfigValidator.LoadResult | monitoring.py:29-46 | the parsed document comes back unchanged exactly when it is a list of mappings, an empty string or an empty mapping; a list fails at its first non-mapping; a null, bool or number is not iterable |
| ConfigValidator.ValidationLog | monitoring.py:29-44 | a document that is not a list logs only the format error; a list logs only missing-URL errors, at most one per element, exactly one per record lacking `url` when every element is a mapping |
| ConfigValidator.AcceptedTruthyIsRecordList | monitoring.py:46-121 | an accepted non-empty configuration is a non-empty list of mappings |
| ConfigValidator.LocateEntry | monitoring.py:34-38 | the line lookup computes `EntryLine` |
| ConfigValidator.ValidateRecords | monitoring.py:33-44 | the loop stops at the first non-mapping and has logged exactly the missing-URL diagnostics of the records before it |
| ConfigValidator.LoadConfig | monitoring.py:28-46 | the outcome is `LoadResult` and the log is the "not a list" error (for a non-list) or the missing-URL diagnostics |
| MonitorLoop.Step | monitoring.py:142-144 | the domain's counter exists afterwards with `total` one more and `up` one more exactly on UP, starting from 0/0 on first use; a new domain is appended to the key order; every other counter is unchanged |
| MonitorLoop.StepPreservesWellFormed | monitoring.py:142-144 | recording one check keeps every domain listed once, listed exactly when it has a counter, with `up <= total` |
| MonitorLoop.Results | monitoring.py:140 | one result per endpoint, each the result of `check_health` on that endpoint's answer |
| MonitorLoop.TallyOf | monitoring.py:128-144 | the counters after any prefix of a cycle are well formed: distinct keys, exactly the listed ones, `up <= total` |
| MonitorLoop.TallyAppend | monitoring.py:130-144 | one more endpoint is counted against its host when it has a URL and changes nothing otherwise |
| MonitorLoop.SkippedEndpointChangesNothing | monitoring.py:134-136 | an endpoint with a falsy URL changes no counter |
| MonitorLoop.CheckedCountZero | monitoring.py:142 | no endpoint is checked against a domain exactly when its check count is 0 |
| MonitorLoop.TallyCounts | monitoring.py:138-144 | a domain has an entry exactly when some endpoint with a URL maps to it; each entry's `total` is the number of such endpoints and `up` those of them found UP |
| MonitorLoop.TallyTotalsSum | monitoring.py:134-142 | the totals of a cycle add up to the number of endpoints with a truthy URL |
| MonitorLoop.FirstChecked | monitoring.py:142 | the index of the first endpoint checked against a domain: no earlier endpoint is |
| MonitorLoop.TallyOrder | monitoring.py:128-148 | domains are listed in the order they are first checked within the cycle |
| MonitorLoop.Availability | monitoring.py:149 | availability times total is 100 times up when total > 0, and 0 otherwise; it lies in [0, 100] and is 100 when every check was UP |
| MonitorLoop.Rows | monitoring.py:148-150 | one line per key in key order, each with that key's counts and their availability |
| MonitorLoop.SummaryRows | monitoring.py:148-150 | every domain in the dictionary has exactly one summary line, carrying its counts, with availability in [0, 100] |
| MonitorLoop.DomainStats.constructor | monitoring.py:128 | a fresh dictionary is empty |
| MonitorLoop.DomainStats.Record | monitoring.py:142-144 | the entry is created on first use, `total` goes up by one and `up` too on UP; the dictionary stays well formed |
| MonitorLoop.DomainStats.Summarize | monitoring.py:148-150 | the summary is one line per key in insertion order with its availability and counts |
| MonitorLoop.EndpointLog | monitoring.py:131-140 | an endpoint without a URL logs only the skipping warning; another logs its body warnings followed by its status line |
| MonitorLoop.Visit | monitoring.py:131-144 | an endpoint without a URL is skipped with a warning and changes nothing; another is checked and counted against its host, and its check's log is returned |
| MonitorLoop.RunCycle | monitoring.py:128-150 | the rows are the summary of the counters over the whole configuration and the log is every check's lines, the header and one line per row |
| MonitorLoop.Records | monitoring.py:130 | the records of a list of mappings, one per element, in order |
| MonitorLoop.RunSession | monitoring.py:127-152 | one summary per round, each computed from that round's answers, and the logs of the cycles in order |
| MonitorLoop.MonitorEndpoints | monitoring.py:117-158 | a configuration fault is logged as unexpected and re-raised with no cycle; an empty configuration logs its error and runs no cycle; otherwise the start notice, one cycle per round and the stop notice |
| CycleReport.ListedDomainChecked | monitoring.py:142-148 | a domain in the summary was checked by some endpoint |
| CycleReport.RowCountsAt | monitoring.py:142-150 | a summary line's total is its host's number of checks, its up the number of those found UP, `0 < total`, `up <= total`, and its availability is that of its counts |
| CycleReport.CheckedHostListed | monitoring.py:138-148 | the host of every endpoint with a URL has a summary line |
| CycleReport.CycleSummary | monitoring.py:128-150 | for every cycle: each row's counts and availability as above, rows in first-discovery order, every checked host present |
| CycleReport.LoneSummary | monitoring.py:103-149 | any lone endpoint with a URL gives a single line for its host, at 100% (1/1) when found UP and 0% (0/1) when found DOWN |
| CycleReport.HealthyEndpointScenario | monitoring.py:103-149 | one endpoint answering 200 in 50 ms gives its host 100% (1/1) |
| CycleReport.SlowEndpointScenario | monitoring.py:103-149 | one endpoint answering 200 in 900 ms gives its host 0% (0/1) |
| CycleReport.SharedSummary | monitoring.py:142-149 | any two endpoints on one host, found UP and DOWN, give a single line at 50% (1/2) |
| CycleReport.SharedDomainScenario | monitoring.py:142-149 | two endpoints on one host, answering 200 and 503, give one line at 50% (1/2) |

## Left out

- The network: `requests.request` and its 5 s timeout are not performed. The answer is the input `Outcome`, and the timeout appears only as a field of the request.
- The clock: `time.time()` and `time.sleep(15)` are not modelled. The elapsed milliseconds are part of the answer.
- Unbounded running: `while True` runs once per element of the finite `rounds`. The `KeyboardInterrupt` is taken to arrive after the last cycle, never in the middle of one.
- Logging: the `logging` configuration and its handlers, and the `%.2f` and message formatting, are not modelled. An event carries its level and the data its message interpolates.
- Parsing and arguments: `yaml.safe_load`, opening the file, the YAML and missing-file error paths and `sys.argv`. The configuration arrives as the parsed `Value` plus the document text.
- Parser internals: `json.loads` and `urlparse(...).hostname` are oracles. A `ValueError` raised by `urlparse` is not modelled.
- Floating point: latency and availability are exact reals.
- Value kinds: floats, bytes, dates and timestamps, which `yaml.safe_load` can produce for the configuration and `json.loads` for a body, are not among the modelled values. A float document such as `1.5`, which is not iterable at line 33, and a falsy `body: 0.0` at line 56 cannot be stated.
- Rendering and keys: an f-string's rendering of a non-string name or URL is the oracle `str`, and mapping keys are strings only.
- Text.Lower: lower-cases ASCII letters only, not all of Unicode.
- HealthChecker.CheckHealth: requires `Probeable`: a truthy URL is a string, and the headers are a mapping whose `content-type` is a string. Its URL half holds at the single call site, line 140, because a truthy non-string URL has already raised in `urlparse(url)` at line 138. Its header half does not: non-mapping headers or a non-string `content-type` reach the check and make it raise at lines 59 and 96, outside its `RequestException` handler. The model leaves these crashing paths out.
- HealthChecker.Outcome: has no case for an exception inside `requests.request` that is not a `RequestException`, such as the one a non-string `method` causes. That exception escapes the handler at line 112 and stops the monitor; the model leaves it out.
- MonitorLoop.MonitorEndpoints: for a configuration that loads, requires that its records be probeable, so the uncaught exceptions of the header and URL shapes above are left out, and that each round hold one answer per record. A configuration that fails to load needs neither.
- MonitorLoop.Availability: states the percentage through `a * total == 100 * up`, exact in the reals rather than a float division.
