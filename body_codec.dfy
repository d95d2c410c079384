/** `parse_body` and the choice between the `json=` and `data=` request
    arguments (monitoring.py:55-72, 96-97). `json.loads` is the oracle
    `loads`, which answers `None` where the real function raises
    `JSONDecodeError`. */
module BodyCodec {
  import opened Values
  import opened Text
  import opened Events

  const JsonMediaType := "application/json"

  /** The shape the source needs of a header mapping it reads: a
      `content-type` entry, when there is one, holds a string
      (it is lower-cased). */
  predicate HeadersShape(headers: map<string, Value>) {
    "content-type" in headers ==> headers["content-type"].Str?
  }

  /** `headers.get('content-type', '').lower()`: the key is matched exactly,
      only the value is lower-cased. */
  function ContentType(headers: map<string, Value>): (ct: string)
    requires HeadersShape(headers)
    ensures "content-type" !in headers ==> ct == ""
    ensures "content-type" in headers ==>
              |ct| == |headers["content-type"].s| &&
              forall i :: 0 <= i < |ct| ==> ct[i] == LowerChar(headers["content-type"].s[i])
    ensures forall i :: 0 <= i < |ct| ==> !('A' <= ct[i] <= 'Z')
  {
    if "content-type" in headers then Lower(headers["content-type"].s) else ""
  }

  /** `'application/json' in <content type>`. */
  predicate IsJsonContent(headers: map<string, Value>): (b: bool)
    requires HeadersShape(headers)
    ensures b <==> exists i :: OccursAt(ContentType(headers), JsonMediaType, i)
    ensures b ==> "content-type" in headers
  {
    Contains(ContentType(headers), JsonMediaType)
  }

  /** The value `parse_body` returns and the warnings it logs. */
  datatype Parsed = Parsed(value: Value, events: seq<Event>)

  /** `parse_body(body, headers)`. A falsy body is no body. A string body under
      a JSON content type is decoded; if decoding fails the original string is
      returned and a warning is logged. Anything else comes back unchanged. */
  function ParseBody(body: Value, headers: map<string, Value>, loads: string -> Option<Value>): (p: Parsed)
    requires HeadersShape(headers)
    ensures !Truthy(body) ==> p == Parsed(Null, [])
    ensures Truthy(body) && !(IsJsonContent(headers) && body.Str?) ==> p == Parsed(body, [])
    ensures Truthy(body) && IsJsonContent(headers) && body.Str? ==>
              match loads(body.s)
              case Some(decoded) => p == Parsed(decoded, [])
              case None => p == Parsed(body, [Event(Warning, JsonBodyUnparsable(body.s))])
    ensures Truthy(body) ==>
              p.value == body || (IsJsonContent(headers) && body.Str? && loads(body.s) == Some(p.value))
    ensures p.events != [] <==>
              Truthy(body) && IsJsonContent(headers) && body.Str? && loads(body.s).None?
  {
    if !Truthy(body) then Parsed(Null, [])
    else if IsJsonContent(headers) then
      match body
      case Str(text) =>
        (match loads(text)
         case Some(decoded) => Parsed(decoded, [])
         case None => Parsed(body, [Event(Warning, JsonBodyUnparsable(text))]))
      case _ => Parsed(body, [])
    else Parsed(body, [])
  }

  /** The `json=` and `data=` arguments of the request; `Null` is `None`. */
  datatype Payload = Payload(json: Value, data: Value)

  /** monitoring.py:96-97. At most one argument is set: `json=` carries the
      parsed body exactly under a JSON content type, `data=` carries it
      exactly otherwise and when it is truthy. */
  function SelectPayload(parsed: Value, headers: map<string, Value>): (p: Payload)
    requires HeadersShape(headers)
    ensures p.json == Null || p.data == Null
    ensures p.json == (if IsJsonContent(headers) then parsed else Null)
    ensures p.data != Null <==> !IsJsonContent(headers) && Truthy(parsed)
    ensures p.data != Null ==> p.data == parsed
  {
    Payload(if IsJsonContent(headers) then parsed else Null,
            if !IsJsonContent(headers) && Truthy(parsed) then parsed else Null)
  }

  /** What a configured body becomes on the wire. A falsy body sends nothing;
      under a JSON content type a string body goes out decoded, or as the
      original string when it does not decode, and any other body goes out
      as it is; under any other content type the body goes out as `data=`
      exactly as configured. */
  lemma OutboundPayload(body: Value, headers: map<string, Value>, loads: string -> Option<Value>)
    requires HeadersShape(headers)
    ensures var p := SelectPayload(ParseBody(body, headers, loads).value, headers);
      && (!Truthy(body) ==> p == Payload(Null, Null))
      && (Truthy(body) && !IsJsonContent(headers) ==> p == Payload(Null, body))
      && (Truthy(body) && IsJsonContent(headers) && body.Str? && loads(body.s).Some? ==>
            p == Payload(loads(body.s).value, Null))
      && (Truthy(body) && IsJsonContent(headers) && body.Str? && loads(body.s).None? ==>
            p == Payload(body, Null))
      && (Truthy(body) && IsJsonContent(headers) && !body.Str? ==> p == Payload(body, Null))
  {
  }

  /** Decoding a JSON-typed string body gives exactly what `json.loads` gives
      for the same text. */
  lemma JsonBodyRoundTrip(text: string, headers: map<string, Value>, loads: string -> Option<Value>)
    requires HeadersShape(headers) && IsJsonContent(headers)
    requires text != [] && loads(text).Some?
    ensures ParseBody(Str(text), headers, loads).value == loads(text).value
  {
  }

  /** The header key is matched exactly: a capitalised `Content-Type` header
      is not seen, so a JSON string body is sent verbatim as `data=`. */
  lemma CapitalisedHeaderKeyIsIgnored(text: string, loads: string -> Option<Value>)
    requires text != []
    ensures var headers := map["Content-Type" := Str(JsonMediaType)];
      && !IsJsonContent(headers)
      && SelectPayload(ParseBody(Str(text), headers, loads).value, headers) == Payload(Null, Str(text))
  {
    var headers := map["Content-Type" := Str(JsonMediaType)];
    assert "content-type" !in headers;
    assert ContentType(headers) == "";
    assert forall i :: !OccursAt("", JsonMediaType, i);
  }

  /** The header value is compared case-insensitively. */
  lemma HeaderValueCaseIsIgnored()
    ensures IsJsonContent(map["content-type" := Str("Application/JSON")])
  {
    var raw := "Application/JSON";
    var ct := Lower(raw);
    forall i | 0 <= i < |raw| ensures ct[i] == JsonMediaType[i] {
      assert ct[i] == LowerChar(raw[i]);
    }
    assert ct == JsonMediaType;
    assert OccursAt(ct, JsonMediaType, 0);
  }
}
