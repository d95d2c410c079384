/** `load_config` after the document has been read and parsed: the advisory
    validation pass over the parsed records, with its best-effort line-number
    lookup in the original document text (monitoring.py:28-46). */
module ConfigValidator {
  import opened Values
  import opened Text
  import opened Events

  /** How an f-string renders a value: a string as itself, anything else
      through Python's `str`, which is supplied as `str`. */
  function Render(v: Value, str: Value -> string): string {
    if v.Str? then v.s else str(v)
  }

  /** The text searched for first: `"- name: <name>"`, with `''` for a
      record without a name. */
  function NamePattern(entry: map<string, Value>, str: Value -> string): (pat: string)
    ensures |pat| == 8 + |Render(Get(entry, "name", Str("")), str)|
    ensures pat[..8] == "- name: " && pat[8..] == Render(Get(entry, "name", Str("")), str)
    ensures "name" !in entry ==> pat == "- name: "
  {
    "- name: " + Render(Get(entry, "name", Str("")), str)
  }

  /** The text searched for second: `"- url: <url>"`. */
  function UrlPattern(entry: map<string, Value>, str: Value -> string): (pat: string)
    ensures |pat| == 7 + |Render(Get(entry, "url", Str("")), str)|
    ensures pat[..7] == "- url: " && pat[7..] == Render(Get(entry, "url", Str("")), str)
    ensures "url" !in entry ==> pat == "- url: "
  {
    "- url: " + Render(Get(entry, "url", Str("")), str)
  }

  /** The 1-based line holding offset `at` of `text`. */
  function LineAt(text: string, at: nat): (l: LineRef)
    requires at <= |text|
    ensures l.Line? && 1 <= l.n <= CountChar(text, '\n') + 1
  {
    CountCharPrefix(text, '\n', at);
    Line(CountChar(text[..at], '\n') + 1)
  }

  /** The line reported for a record: the line of the first occurrence of its
      name pattern, else of its url pattern, else "unknown". */
  function EntryLine(text: string, entry: map<string, Value>, str: Value -> string): (l: LineRef)
    ensures forall k :: FirstOccurrence(text, NamePattern(entry, str), k) ==>
              k <= |text| && l == LineAt(text, k)
    ensures (forall i :: !OccursAt(text, NamePattern(entry, str), i)) ==>
              forall k :: FirstOccurrence(text, UrlPattern(entry, str), k) ==>
                k <= |text| && l == LineAt(text, k)
    ensures l.Unknown? <==>
              (forall i :: !OccursAt(text, NamePattern(entry, str), i)) &&
              (forall i :: !OccursAt(text, UrlPattern(entry, str), i))
    ensures l.Line? ==> 1 <= l.n <= CountChar(text, '\n') + 1
  {
    var at := Find(text, NamePattern(entry, str));
    var at' := if at == -1 then Find(text, UrlPattern(entry, str)) else at;
    if at' == -1 then Unknown else LineAt(text, at')
  }

  /** The diagnostic for a record that lacks the `url` key. */
  function MissingUrlEvent(text: string, entry: map<string, Value>, str: Value -> string): (e: Event)
    ensures e.level == Error && e.message.EndpointMissingUrl?
    ensures e.message.line.Unknown? <==>
              (forall i :: !OccursAt(text, NamePattern(entry, str), i)) &&
              (forall i :: !OccursAt(text, UrlPattern(entry, str), i))
    ensures e.message.line.Line? ==> 1 <= e.message.line.n <= CountChar(text, '\n') + 1
  {
    Event(Error, EndpointMissingUrl(EntryLine(text, entry, str)))
  }

  /** Index of the first element that is not a mapping, or the length of
      `items` when all of them are. */
  function FirstNonMapping(items: seq<Value>): (k: nat)
    ensures k <= |items|
    ensures forall i :: 0 <= i < k ==> items[i].Dict?
    ensures k < |items| ==> !items[k].Dict?
  {
    if items == [] || !items[0].Dict? then 0 else 1 + FirstNonMapping(items[1..])
  }

  /** The indices of the records without the `url` key. */
  function MissingIndices(items: seq<Value>): set<nat>
    requires forall i :: 0 <= i < |items| ==> items[i].Dict?
  {
    set i: nat | i < |items| && "url" !in items[i].entries
  }

  /** Number of records without the `url` key. */
  function MissingCount(items: seq<Value>): (n: nat)
    requires forall i :: 0 <= i < |items| ==> items[i].Dict?
    ensures n == |MissingIndices(items)|
    ensures n <= |items|
  {
    if items == [] then 0
    else
      var k := |items| - 1;
      var init := items[..k];
      assert MissingIndices(items) ==
        MissingIndices(init) + (if "url" in items[k].entries then {} else {k});
      assert k !in MissingIndices(init);
      MissingCount(init) + (if "url" in items[k].entries then 0 else 1)
  }

  /** The diagnostics the validation loop emits for a run of mapping records,
      in record order: one per record lacking `url`, and nothing else. */
  function MissingUrlDiagnostics(text: string, items: seq<Value>, str: Value -> string): (log: seq<Event>)
    requires forall i :: 0 <= i < |items| ==> items[i].Dict?
    ensures |log| == MissingCount(items) <= |items|
    ensures forall e :: e in log ==> e.level == Error && e.message.EndpointMissingUrl?
  {
    if items == [] then []
    else
      var last := items[|items| - 1].entries;
      MissingUrlDiagnostics(text, items[..|items| - 1], str)
        + (if "url" in last then [] else [MissingUrlEvent(text, last, str)])
  }

  /** The record at index `j` lacking `url` gets the diagnostic at position
      "number of such records before it". */
  lemma {:induction false} MissingUrlDiagnosticsOnePerRecord(text: string, items: seq<Value>, str: Value -> string)
    requires forall i :: 0 <= i < |items| ==> items[i].Dict?
    ensures forall j :: 0 <= j < |items| && "url" !in items[j].entries ==>
              MissingCount(items[..j]) < MissingCount(items) &&
              MissingUrlDiagnostics(text, items, str)[MissingCount(items[..j])]
                == MissingUrlEvent(text, items[j].entries, str)
    decreases |items|
  {
    if items != [] {
      var n := |items| - 1;
      var init := items[..n];
      var last := items[n].entries;
      MissingUrlDiagnosticsOnePerRecord(text, init, str);
      var before := MissingUrlDiagnostics(text, init, str);
      var tail := if "url" in last then [] else [MissingUrlEvent(text, last, str)];
      assert MissingUrlDiagnostics(text, items, str) == before + tail;
      forall j | 0 <= j < |items| && "url" !in items[j].entries
        ensures MissingCount(items[..j]) < MissingCount(items)
        ensures MissingUrlDiagnostics(text, items, str)[MissingCount(items[..j])]
                  == MissingUrlEvent(text, items[j].entries, str)
      {
        if j < n {
          assert init[j] == items[j];
          assert init[..j] == items[..j];
        } else {
          assert items[..j] == init;
        }
      }
    }
  }

  /** What `load_config` returns or raises once the document is parsed. */
  datatype Loaded = Accepted(config: Value) | Raised(fault: Fault)

  /** The outcome of the validation pass: the document comes back unchanged
      unless iterating it reaches an element without `.get` (any non-mapping,
      including the characters of a string and the keys of a mapping), or the
      document cannot be iterated at all. */
  function LoadResult(doc: Value): (r: Loaded)
    ensures r.Accepted? ==> r.config == doc
    ensures r.Accepted? <==>
              (doc.List? && forall i :: 0 <= i < |doc.items| ==> doc.items[i].Dict?)
              || doc == Str("") || doc == Dict(map[])
    ensures doc.List? && r.Raised? ==>
              exists k :: 0 <= k < |doc.items| && r.fault == NotAMapping(k) &&
                !doc.items[k].Dict? && forall i :: 0 <= i < k ==> doc.items[i].Dict?
    ensures (doc.Null? || doc.Bool? || doc.Int?) ==> r == Raised(NotIterable)
  {
    match doc
    case List(items) =>
      var k := FirstNonMapping(items);
      if k == |items| then Accepted(doc) else Raised(NotAMapping(k))
    case Str(s) => if s == [] then Accepted(doc) else Raised(NotAMapping(0))
    case Dict(m) => if |m| == 0 then Accepted(doc) else Raised(NotAMapping(0))
    case _ => Raised(NotIterable)
  }

  /** A configuration accepted and truthy is a non-empty list of mappings:
      the only shape the monitoring loop ever iterates. */
  lemma AcceptedTruthyIsRecordList(doc: Value)
    requires LoadResult(doc).Accepted? && Truthy(doc)
    ensures doc.List? && |doc.items| > 0
    ensures forall i :: 0 <= i < |doc.items| ==> doc.items[i].Dict?
  {
  }

  /** Everything the validation pass logs, in order: the format error for a
      document that is not a list; for a list, one missing-URL error per
      mapping record lacking `url` before the first non-mapping. */
  function ValidationLog(text: string, doc: Value, str: Value -> string): (log: seq<Event>)
    ensures !doc.List? ==> log == [Event(Error, ConfigNotAList)]
    ensures doc.List? ==> |log| <= |doc.items|
    ensures doc.List? ==> forall e :: e in log ==> e.level == Error && e.message.EndpointMissingUrl?
    ensures doc.List? && LoadResult(doc).Accepted? ==> |log| == MissingCount(doc.items)
  {
    if doc.List? then
      var k := FirstNonMapping(doc.items);
      assert k == |doc.items| ==> doc.items[..k] == doc.items;
      MissingUrlDiagnostics(text, doc.items[..k], str)
    else
      [Event(Error, ConfigNotAList)]
  }

  /** The line-number lookup of the validation loop (monitoring.py:33-37). */
  method LocateEntry(text: string, entry: map<string, Value>, str: Value -> string) returns (line: LineRef)
    ensures line == EntryLine(text, entry, str)
  {
    var at := Find(text, NamePattern(entry, str));
    if at == -1 {
      at := Find(text, UrlPattern(entry, str));
    }
    line := if at == -1 then Unknown else Line(CountChar(text[..at], '\n') + 1);
  }

  lemma MissingUrlDiagnosticsStep(text: string, items: seq<Value>, str: Value -> string, k: nat)
    requires k < |items| && forall j :: 0 <= j <= k ==> items[j].Dict?
    ensures MissingUrlDiagnostics(text, items[..k + 1], str)
         == MissingUrlDiagnostics(text, items[..k], str)
            + (if "url" in items[k].entries then [] else [MissingUrlEvent(text, items[k].entries, str)])
  {
    assert items[..k + 1][..k] == items[..k];
  }

  /** `for endpoint in config` over a list: the diagnostics of the mapping
      records, up to the first element that is not a mapping (`k`, or the
      length when there is none), where `.get` raises. */
  method ValidateRecords(text: string, items: seq<Value>, str: Value -> string) returns (k: nat, log: seq<Event>)
    ensures k == FirstNonMapping(items)
    ensures log == MissingUrlDiagnostics(text, items[..k], str)
  {
    log := [];
    k := 0;
    while k < |items|
      invariant 0 <= k <= |items|
      invariant forall j :: 0 <= j < k ==> items[j].Dict?
      invariant log == MissingUrlDiagnostics(text, items[..k], str)
    {
      if !items[k].Dict? {
        return;
      }
      var entry := items[k].entries;
      var line := LocateEntry(text, entry, str);
      if "url" !in entry {
        log := log + [Event(Error, EndpointMissingUrl(line))];
      }
      MissingUrlDiagnosticsStep(text, items, str, k);
      k := k + 1;
    }
  }

  /** `load_config` once the document is parsed: the format warning, then
      the validation loop. */
  method LoadConfig(text: string, doc: Value, str: Value -> string) returns (loaded: Loaded, log: seq<Event>)
    ensures loaded == LoadResult(doc)
    ensures log == ValidationLog(text, doc, str)
  {
    log := [];
    if !doc.List? {
      log := log + [Event(Error, ConfigNotAList)];
    }
    match doc {
      case List(items) =>
        var k, diagnostics := ValidateRecords(text, items, str);
        log := log + diagnostics;
        loaded := if k == |items| then Accepted(doc) else Raised(NotAMapping(k));
      case Str(s) =>
        loaded := if s == [] then Accepted(doc) else Raised(NotAMapping(0));
      case Dict(m) =>
        loaded := if |m| == 0 then Accepted(doc) else Raised(NotAMapping(0));
      case _ =>
        loaded := Raised(NotIterable);
    }
  }
}
