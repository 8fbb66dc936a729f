/**
  `APIResponse`: a wrapper around the transport's raw response whose mapping
  contents are the decoded JSON body when the response says it is JSON, and
  the empty mapping otherwise.
 */
module Response {
  import opened Wrappers

  /** A decoded JSON value (numbers are kept as integers). */
  datatype Json =
    | Null
    | Bool(b: bool)
    | Number(n: int)
    | String(s: string)
    | Array(items: seq<Json>)
    | Object(fields: map<string, Json>)

  type JsonObject = map<string, Json>

  /**
    The transport's raw response. Header names are the lower-case keys under
    which the transport's case-insensitive header dictionary finds them.
   */
  datatype RawResponse = RawResponse(statusCode: int, headers: map<string, string>, text: string)

  /**
    `response.json()`: the decoded body, or `None` when decoding raises
    (malformed JSON or a body that cannot be decoded).
   */
  type Decoder = string -> Option<JsonObject>

  const ContentTypeHeader: string := "content-type"
  const JsonMediaType: string := "application/json"

  /** `response.headers.get('content-type')`. */
  function ContentType(raw: RawResponse): (ct: Option<string>)
    ensures ct.Some? <==> ContentTypeHeader in raw.headers
    ensures ct.Some? ==> ct.value == raw.headers[ContentTypeHeader]
  {
    if ContentTypeHeader in raw.headers then Some(raw.headers[ContentTypeHeader]) else None
  }

  /** The content-type is a string starting with `application/json`. */
  predicate IsJsonContentType(ct: Option<string>) {
    ct.Some? && JsonMediaType <= ct.value
  }

  /** An `APIResponse`: the raw response, its content-type and its mapping contents. */
  datatype ApiResponse = ApiResponse(response: RawResponse, contentType: Option<string>, json: JsonObject)

  /**
    `APIResponse(response)`. The contents are the decoded body exactly when
    the content-type is JSON and decoding succeeds; in every other case they
    are empty: a `JSONDecodeError` or `TypeError` from decoding does not escape.
   */
  function Wrap(raw: RawResponse, decode: Decoder): (r: ApiResponse)
    ensures r.response == raw && r.contentType == ContentType(raw)
    ensures (IsJsonContentType(ContentType(raw)) && decode(raw.text).Some?) ==> r.json == decode(raw.text).value
    ensures (!IsJsonContentType(ContentType(raw)) || decode(raw.text).None?) ==> r.json == map[]
  {
    var ct := ContentType(raw);
    var body :=
      if IsJsonContentType(ct) then
        match decode(raw.text)
        case Some(obj) => obj
        case None => map[]
      else
        map[];
    ApiResponse(raw, ct, body)
  }

  /** Non-empty contents can only have come from a JSON body that decoded to them. */
  lemma NonEmptyContentsAreDecoded(raw: RawResponse, decode: Decoder)
    requires Wrap(raw, decode).json != map[]
    ensures IsJsonContentType(ContentType(raw))
    ensures decode(raw.text) == Some(Wrap(raw, decode).json)
  {
  }

  /** The body is never decoded for a response that is not JSON. */
  lemma NonJsonIgnoresDecoder(raw: RawResponse, decode1: Decoder, decode2: Decoder)
    requires !IsJsonContentType(ContentType(raw))
    ensures Wrap(raw, decode1) == Wrap(raw, decode2)
  {
  }

  /** A `application/json` response whose body is `{"a": 1}`. */
  lemma JsonBodyExample(decode: Decoder)
    requires decode("{\"a\":1}") == Some(map["a" := Number(1)])
    ensures Wrap(RawResponse(200, map["content-type" := "application/json"], "{\"a\":1}"), decode).json
         == map["a" := Number(1)]
  {
  }

  /** A `text/plain` response has empty contents and keeps its raw text. */
  lemma PlainTextExample(decode: Decoder, text: string)
    ensures var r := Wrap(RawResponse(200, map["content-type" := "text/plain"], text), decode);
            r.json == map[] && r.response.text == text
  {
    assert !(JsonMediaType <= "text/plain");
  }
}
