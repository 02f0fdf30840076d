/** `get_body` (formodoro/main.py): chooses a body parser from the
    Content-Type header and turns parser failures into 400 responses.
    The parsers themselves are not modelled: their outcomes are inputs. */
module ContentType {
  import opened Values

  const JsonType: string := "application/json"
  const UrlEncodedType: string := "application/x-www-form-urlencoded"
  const MultipartPrefix: string := "multipart/form-data"

  const NoContentType: string := "No Content-Type provided!"
  const NotSupported: string := "Content-Type not supported!"
  const InvalidJson: string := "Invalid JSON data"
  const InvalidForm: string := "Invalid Form data"

  /** What `get_body` hands to the handler: the decoded JSON document, or
      the form's fields. */
  datatype Body = JsonBody(json: Value) | FormBody(form: FormData)

  /** Outcome of `request.json()`. Only `JSONDecodeError` is caught by
      `get_body`; any other exception (say, a body that is not valid UTF-8)
      escapes to the framework. */
  datatype JsonParse = JsonParsed(json: Value) | JsonDecodeError | JsonOtherError

  /** Outcome of `request.form()`; every exception is caught. */
  datatype FormParse = FormParsed(form: FormData) | FormParseError

  /** The branch of `get_body` a Content-Type header selects. */
  datatype Parser = JsonParser | FormParser | NoParser(detail: string)

  predicate IsFormType(contentType: string) {
    contentType == UrlEncodedType || StartsWith(contentType, MultipartPrefix)
  }

  /** The if/elif chain of `get_body`: the JSON parser only for exactly
      "application/json", the form parser for exactly the url-encoded type
      or anything starting with "multipart/form-data", otherwise none. */
  function SelectParser(contentType: Option<string>): (p: Parser)
    ensures p.JsonParser? <==> contentType == Some(JsonType)
    ensures p.FormParser? <==> contentType.Some? && IsFormType(contentType.value)
    ensures p.NoParser? <==> contentType.None? || (contentType.value != JsonType && !IsFormType(contentType.value))
    ensures p.NoParser? ==> p.detail == if contentType.None? then NoContentType else NotSupported
  {
    match contentType
    case None => NoParser(NoContentType)
    case Some(ct) =>
      if ct == JsonType then JsonParser
      else if IsFormType(ct) then FormParser
      else NoParser(NotSupported)
  }

  /** `get_body`: the parsed body, or the response the request ends with. */
  function GetBody(contentType: Option<string>, json: JsonParse, form: FormParse): (r: Result<Body>)
    ensures contentType.None? ==> r == Err(Status(400, NoContentType))
    ensures contentType.Some? && contentType.value != JsonType && !IsFormType(contentType.value) ==>
      r == Err(Status(400, NotSupported))
    ensures r.Ok? && r.value.JsonBody? <==> contentType == Some(JsonType) && json.JsonParsed?
    ensures r.Ok? && r.value.JsonBody? ==> json == JsonParsed(r.value.json)
    ensures r.Ok? && r.value.FormBody? <==> SelectParser(contentType).FormParser? && form.FormParsed?
    ensures r.Ok? && r.value.FormBody? ==> form == FormParsed(r.value.form)
    ensures r == Err(Status(400, InvalidJson)) <==> contentType == Some(JsonType) && json.JsonDecodeError?
    ensures r == Err(Status(400, InvalidForm)) <==> SelectParser(contentType).FormParser? && form.FormParseError?
    ensures r == Err(Unhandled) <==> contentType == Some(JsonType) && json.JsonOtherError?
    ensures r.Err? ==> r.response == Unhandled || (r.response.Status? && r.response.code == 400)
  {
    match SelectParser(contentType)
    case NoParser(detail) => Err(Status(400, detail))
    case JsonParser =>
      (match json
       case JsonParsed(v) => Ok(JsonBody(v))
       case JsonDecodeError => Err(Status(400, InvalidJson))
       case JsonOtherError => Err(Unhandled))
    case FormParser =>
      (match form
       case FormParsed(f) => Ok(FormBody(f))
       case FormParseError => Err(Status(400, InvalidForm)))
  }

  /** A parser that the Content-Type does not select is never consulted:
      its outcome cannot change the result. Without a usable Content-Type
      neither parser runs. */
  lemma OnlyTheSelectedParserRuns(contentType: Option<string>, json1: JsonParse, json2: JsonParse, form1: FormParse, form2: FormParse)
    ensures !SelectParser(contentType).JsonParser? ==> GetBody(contentType, json1, form1) == GetBody(contentType, json2, form1)
    ensures !SelectParser(contentType).FormParser? ==> GetBody(contentType, json1, form1) == GetBody(contentType, json1, form2)
    ensures SelectParser(contentType).NoParser? ==> GetBody(contentType, json1, form1) == GetBody(contentType, json2, form2)
  {
  }

  /** The JSON branch compares the whole header, so a media-type parameter
      such as a charset makes the request unsupported. */
  lemma CharsetParameterIsNotSupported(json: JsonParse, form: FormParse)
    ensures GetBody(Some("application/json; charset=utf-8"), json, form) == Err(Status(400, NotSupported))
  {
    var ct := "application/json; charset=utf-8";
    assert ct[0] != MultipartPrefix[0];
  }

  /** The multipart branch matches by prefix, so a boundary parameter is
      accepted. */
  lemma MultipartBoundaryIsForm()
    ensures SelectParser(Some("multipart/form-data; boundary=x")).FormParser?
  {
    var ct := "multipart/form-data; boundary=x";
    assert ct[..|MultipartPrefix|] == MultipartPrefix;
  }
}
