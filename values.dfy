/** Values shared by every stage of the `/submit` intake pipeline: optional
    headers, submitted field values, the submission record and the HTTP
    responses the endpoint can produce. */
module Values {

  datatype Option<+T> = None | Some(value: T)

  /** A value a client can submit. JSON bodies produce the first six
      constructors; form bodies produce `Str` for text fields and `Upload`
      for file fields (an uploaded file, known here by its name). */
  datatype Value =
    | Null
    | Bool(b: bool)
    | Number(literal: string)
    | Str(s: string)
    | Array(items: seq<Value>)
    | Object(fields: map<string, Value>)
    | Upload(filename: string)

  /** The submission record: a flat mapping from field name to value. */
  type Record = map<string, Value>

  /** One field of a parsed form body, in the order the client sent it.
      A key may occur more than once. */
  datatype FormItem = FormItem(key: string, value: Value)

  type FormData = seq<FormItem>

  /** A stage either hands its result on or ends the request with a response. */
  datatype Result<+T> = Ok(value: T) | Err(response: Response)

  /** The key the handler stamps with the submission time. */
  const TimestampKey: string := "timestamp"

  /** The key under which the document store keeps a document's identifier. */
  const IdKey: string := "_id"

  /** What the endpoint answers. */
  datatype Response =
      /** An `HTTPException`: status `code`, body `{"detail": detail}`. */
    | Status(code: int, detail: string)
      /** 302 redirect to `url`. */
    | Redirect(url: string)
      /** 200, body `{"status": "success", "data": data}`. */
    | Success(data: Record)
      /** 500, body `{"status": "error", "message": message}`. */
    | StorageError(message: string)
      /** An exception nobody catches: the framework answers a plain 500. */
    | Unhandled

  /** The HTTP status code a response is sent with. */
  function Code(r: Response): int {
    match r
    case Status(code, _) => code
    case Redirect(_) => 302
    case Success(_) => 200
    case StorageError(_) => 500
    case Unhandled => 500
  }

  /** Python's `s.startswith(prefix)`: `s` is `prefix` followed by the
      rest of `s`. */
  predicate StartsWith(s: string, prefix: string): (b: bool)
    ensures b <==> |prefix| <= |s| && s == prefix + s[|prefix|..]
  {
    |prefix| <= |s| && s[..|prefix|] == prefix
  }

  /** The float literals Python's JSON decoder accepts for non-finite numbers. */
  const NonFiniteLiterals: set<string> := {"NaN", "Infinity", "-Infinity"}

  /** Whether `json.dumps(..., allow_nan=False)`, which renders a 200
      JSON response, can render the value: no non-finite number and no
      uploaded file anywhere inside it. */
  predicate Renderable(v: Value): (b: bool)
    ensures v.Null? || v.Bool? || v.Str? ==> b
    ensures v.Upload? ==> !b
    ensures v.Number? ==> (b <==> v.literal !in NonFiniteLiterals)
    ensures v.Array? ==> (b <==> forall i :: 0 <= i < |v.items| ==> Renderable(v.items[i]))
    ensures v.Object? ==> (b <==> forall k :: k in v.fields ==> Renderable(v.fields[k]))
  {
    match v
    case Number(literal) => literal !in NonFiniteLiterals
    case Upload(_) => false
    case Array(items) => forall i :: 0 <= i < |items| ==> Renderable(items[i])
    case Object(fields) => forall k :: k in fields ==> Renderable(fields[k])
    case _ => true
  }

  predicate RenderableRecord(r: Record) {
    forall k :: k in r ==> Renderable(r[k])
  }
}
