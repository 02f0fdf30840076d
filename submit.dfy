/** The `/submit` endpoint (formodoro/main.py): the body from `get_body`,
    then the request-source check, then normalisation, then the
    best-effort notification and the insert into the document store.

    The collaborators the handler calls (the JSON and form parsers, the
    notification library, the clock, the document store) are not modelled;
    what each of them returns is an input, so the model is deterministic. */
module Submit {
  import opened Values
  import opened ContentType
  import opened Origin
  import opened Normalization

  /** Whether the notification call returned or raised (serialising a
      record that holds an uploaded file always raises; the model does not
      enforce that). */
  datatype NotifyOutcome = Delivered | Raised

  /** Whether the store accepted the write, or the message of what it
      raised (encoding a record that holds an uploaded file always raises;
      the model does not enforce that). */
  datatype StorageOutcome = Acknowledged | InsertFailed(message: string)

  /** What a request does to the outside world, in order. */
  datatype Effect =
    | Notification(data: Record)      // `notify(...)` about `data` returned without raising
    | Insertion(document: Record)     // `document` was handed to the store

  datatype Outcome = Outcome(response: Response, effects: seq<Effect>)

  /** The parts of an HTTP request the handler looks at. */
  datatype Request = Request(
    contentType: Option<string>,
    referer: Option<string>,
    origin: Option<string>,
    redirect: string)   // query parameter, "" when absent

  /** What the handler's collaborators return for one request. */
  datatype Collaborators = Collaborators(
    json: JsonParse,
    form: FormParse,
    notify: NotifyOutcome,
    storage: StorageOutcome,
    now: string,        // `datetime.now().isoformat()`
    newId: Value)       // the identifier the store driver would generate

  /** The documents handed to the store, in order. */
  function Insertions(effects: seq<Effect>): seq<Record> {
    if effects == [] then []
    else (if effects[0].Insertion? then [effects[0].document] else []) + Insertions(effects[1..])
  }

  /** The driver's `insert_one` gives a document without "_id" a fresh
      identifier, in the caller's own dictionary, before writing it. */
  function WithId(document: Record, newId: Value): (d: Record)
    ensures IdKey in d
    ensures d[IdKey] == if IdKey in document then document[IdKey] else newId
    ensures forall k :: k != IdKey ==> (k in d <==> k in document)
    ensures forall k :: k != IdKey && k in document ==> d[k] == document[k]
  {
    if IdKey in document then document else document[IdKey := newId]
  }

  /** The record after `data["timestamp"] = now`. */
  function Stamped(data: Record, now: string): (r: Record)
    ensures TimestampKey in r && r[TimestampKey] == Str(now)
    ensures forall k :: k != TimestampKey ==> (k in r <==> k in data)
    ensures forall k :: k != TimestampKey && k in data ==> r[k] == data[k]
  {
    data[TimestampKey := Str(now)]
  }

  /** The record as it is handed to the store. */
  function Written(data: Record, now: string, newId: Value): Record {
    WithId(Stamped(data, now), newId)
  }

  /** The tail of the handler once the record is known: notify, stamp,
      insert, then answer with an error, a redirect or the echoed record.
      The echo is rendered by `JSONResponse`, which refuses non-finite
      numbers; the exception escapes to the framework after the record was
      written. */
  function Finish(data: Record, notify: NotifyOutcome, storage: StorageOutcome, now: string, newId: Value, redirect: string): (out: Outcome)
    ensures |out.effects| == (if notify.Delivered? then 2 else 1)
    ensures notify.Delivered? ==> out.effects[0] == Notification(data)
    ensures out.effects[|out.effects| - 1] == Insertion(Written(data, now, newId))
    ensures out.response.StorageError? <==> storage.InsertFailed?
    ensures storage.InsertFailed? ==> out.response == StorageError(storage.message)
    ensures out.response.Redirect? <==> storage.Acknowledged? && redirect != ""
    ensures out.response.Success? ==> IdKey !in out.response.data && RenderableRecord(out.response.data)
  {
    var written := Written(data, now, newId);
    var echo := written - {IdKey};
    var effects := (if notify.Delivered? then [Notification(data)] else []) + [Insertion(written)];
    match storage
    case InsertFailed(message) => Outcome(StorageError(message), effects)
    case Acknowledged =>
      var response :=
        if redirect != "" then Redirect(redirect)
        else if RenderableRecord(echo) then Success(echo)
        else Unhandled;
      Outcome(response, effects)
  }

  /** The whole endpoint, in the order the code runs: `get_body` is a
      dependency and is resolved before the handler's body starts. */
  function Handle(origins: seq<string>, request: Request, c: Collaborators): (out: Outcome)
    ensures out.effects == [] || Admitted(origins, request, c)
    ensures out.response.Status? ==> out.response.code == 400 || out.response.code == 403
    ensures out.response.Status? && out.response.code == 403 ==>
      out.response.detail == InvalidSource &&
      GetBody(request.contentType, c.json, c.form).Ok? && !Accepts(request.referer, request.origin, origins)
    ensures Admitted(origins, request, c) ==>
      out == Finish(RecordOf(origins, request, c), c.notify, c.storage, c.now, c.newId, request.redirect)
  {
    match GetBody(request.contentType, c.json, c.form)
    case Err(response) => Outcome(response, [])
    case Ok(body) =>
      if !Accepts(request.referer, request.origin, origins) then
        Outcome(Status(403, InvalidSource), [])
      else
        match Normalize(body)
        case Err(response) => Outcome(response, [])
        case Ok(data) => Finish(data, c.notify, c.storage, c.now, c.newId, request.redirect)
  }

  /** The request gets past every check and reaches the notification and
      the store. */
  predicate Admitted(origins: seq<string>, request: Request, c: Collaborators) {
    var body := GetBody(request.contentType, c.json, c.form);
    body.Ok? && Accepts(request.referer, request.origin, origins) && Normalize(body.value).Ok?
  }

  /** The record an admitted request stores. */
  function RecordOf(origins: seq<string>, request: Request, c: Collaborators): Record
    requires Admitted(origins, request, c)
  {
    Normalize(GetBody(request.contentType, c.json, c.form).value).value
  }

  // ---------------------------------------------------------------------
  // The handler's dictionary, updated in place
  // ---------------------------------------------------------------------

  /** The Python dictionary `data`, which the handler, the driver and the
      handler again change in place. */
  class Document {
    var fields: Record

    constructor (fields: Record)
      ensures this.fields == fields
    {
      this.fields := fields;
    }

    /** `d[key] = value` */
    method SetItem(key: string, value: Value)
      modifies this
      ensures fields == old(fields)[key := value]
    {
      fields := fields[key := value];
    }

    /** `d.pop(key, None)`: removes the key if it is there. */
    method Pop(key: string)
      modifies this
      ensures fields == old(fields) - {key}
    {
      fields := fields - {key};
    }
  }

  /** `collection.insert_one(document)`: gives the caller's document an
      "_id" when it has none and returns what is written. Whether the write
      succeeds is decided by the store and is an input of `Respond`. */
  method InsertOne(document: Document, newId: Value) returns (written: Record)
    modifies document
    ensures document.fields == WithId(old(document.fields), newId)
    ensures written == document.fields
  {
    if IdKey !in document.fields {
      document.SetItem(IdKey, newId);
    }
    written := document.fields;
  }

  /** The handler's statements after normalisation, step by step on the
      dictionary `data`. */
  method Respond(data: Document, notify: NotifyOutcome, storage: StorageOutcome, now: string, newId: Value, redirect: string)
    returns (out: Outcome)
    modifies data
    ensures out == Finish(old(data.fields), notify, storage, now, newId, redirect)
    ensures data.fields == if storage.Acknowledged? then Written(old(data.fields), now, newId) - {IdKey}
                           else Written(old(data.fields), now, newId)
  {
    var effects: seq<Effect> := [];
    if notify.Delivered? {
      effects := effects + [Notification(data.fields)];
    }
    data.SetItem(TimestampKey, Str(now));
    var written := InsertOne(data, newId);
    effects := effects + [Insertion(written)];
    if storage.InsertFailed? {
      return Outcome(StorageError(storage.message), effects);
    }
    data.Pop(IdKey);
    if redirect != "" {
      return Outcome(Redirect(redirect), effects);
    }
    if !RenderableRecord(data.fields) {
      return Outcome(Unhandled, effects);
    }
    return Outcome(Success(data.fields), effects);
  }

  // ---------------------------------------------------------------------
  // Properties of the tail
  // ---------------------------------------------------------------------

  /** Exactly one document is handed to the store: the record with
      "timestamp" set to the clock reading (replacing a client-supplied
      one), every other submitted field unchanged, and an "_id" (the
      client's own if it sent one). */
  lemma FinishStoresStampedRecord(data: Record, notify: NotifyOutcome, storage: StorageOutcome, now: string, newId: Value, redirect: string)
    ensures var docs := Insertions(Finish(data, notify, storage, now, newId, redirect).effects);
      |docs| == 1 &&
      TimestampKey in docs[0] && docs[0][TimestampKey] == Str(now) &&
      IdKey in docs[0] && docs[0][IdKey] == (if IdKey in data then data[IdKey] else newId) &&
      (forall k :: k != TimestampKey && k != IdKey ==> (k in docs[0] <==> k in data)) &&
      (forall k :: k != TimestampKey && k != IdKey && k in data ==> docs[0][k] == data[k])
  {
    var effects := Finish(data, notify, storage, now, newId, redirect).effects;
    var last := Insertion(Written(data, now, newId));
    if notify.Delivered? {
      assert effects[1..] == [last];
      assert Insertions(effects) == Insertions([last]);
    } else {
      assert effects == [last];
    }
  }

  /** Whether the notification is delivered or raises changes neither the
      response nor what is stored. */
  lemma FinishIgnoresNotification(data: Record, storage: StorageOutcome, now: string, newId: Value, redirect: string)
    ensures Finish(data, Delivered, storage, now, newId, redirect).response ==
            Finish(data, Raised, storage, now, newId, redirect).response
    ensures Insertions(Finish(data, Delivered, storage, now, newId, redirect).effects) ==
            Insertions(Finish(data, Raised, storage, now, newId, redirect).effects)
  {
    FinishStoresStampedRecord(data, Delivered, storage, now, newId, redirect);
    FinishStoresStampedRecord(data, Raised, storage, now, newId, redirect);
  }

  /** The echo can be rendered exactly when the submitted fields other
      than "_id" and "timestamp" can: the driver's "_id" is popped and the
      timestamp is a string. */
  lemma EchoRenderable(data: Record, now: string, newId: Value)
    ensures RenderableRecord(Written(data, now, newId) - {IdKey}) <==> RenderableRecord(data - {IdKey, TimestampKey})
  {
    var echo := Written(data, now, newId) - {IdKey};
    var sent := data - {IdKey, TimestampKey};
    forall k | k in sent ensures k in echo && echo[k] == sent[k] {
    }
    if RenderableRecord(sent) {
      forall k | k in echo ensures Renderable(echo[k]) {
        if k != TimestampKey {
          assert k in sent;
        }
      }
    }
  }

  /** After a successful write: a non-empty `redirect` gives a 302 to it.
      Otherwise, when the submitted fields can be rendered, a 200 echoing
      the stored record without "_id": the submitted fields other than
      "_id" and "timestamp" unchanged and "timestamp" set to the clock
      reading; when they cannot (a non-finite number, an uploaded file),
      the uncaught rendering error, although the record was written. */
  lemma FinishOnStorageSuccess(data: Record, notify: NotifyOutcome, now: string, newId: Value, redirect: string)
    ensures var r := Finish(data, notify, Acknowledged, now, newId, redirect).response;
      (redirect != "" ==> r == Redirect(redirect)) &&
      (redirect == "" && !RenderableRecord(data - {IdKey, TimestampKey}) ==> r == Unhandled) &&
      (redirect == "" && RenderableRecord(data - {IdKey, TimestampKey}) ==>
        r.Success? && IdKey !in r.data &&
        TimestampKey in r.data && r.data[TimestampKey] == Str(now) &&
        (forall k :: k != TimestampKey && k != IdKey ==> (k in r.data <==> k in data)) &&
        (forall k :: k != TimestampKey && k != IdKey && k in data ==> r.data[k] == data[k]))
  {
    EchoRenderable(data, now, newId);
  }

  /** A failed write gives a 500 carrying the store's message, and no
      redirect even when one was asked for. */
  lemma FinishOnStorageFailure(data: Record, notify: NotifyOutcome, message: string, now: string, newId: Value, redirect: string)
    ensures Finish(data, notify, InsertFailed(message), now, newId, redirect).response == StorageError(message)
  {
  }

  // ---------------------------------------------------------------------
  // Properties of the whole endpoint
  // ---------------------------------------------------------------------

  /** A request without Content-Type is answered 400 "No Content-Type
      provided!" and nothing else happens, whatever its headers. */
  lemma MissingContentType(origins: seq<string>, request: Request, c: Collaborators)
    requires request.contentType.None?
    ensures Handle(origins, request, c) == Outcome(Status(400, NoContentType), [])
  {
  }

  /** A body that cannot be obtained decides the answer before the source
      of the request is even looked at, and nothing else happens. */
  lemma ParseErrorsComeFirst(origins: seq<string>, request: Request, c: Collaborators)
    requires GetBody(request.contentType, c.json, c.form).Err?
    ensures Handle(origins, request, c) == Outcome(GetBody(request.contentType, c.json, c.form).response, [])
    ensures !Admitted(origins, request, c)
  {
  }

  /** A malformed JSON body is answered 400 "Invalid JSON data" even when
      the request comes from a source that would be refused. */
  lemma InvalidJsonBeforeOrigin(origins: seq<string>, request: Request, c: Collaborators)
    requires request.contentType == Some(JsonType) && c.json == JsonDecodeError
    requires !Accepts(request.referer, request.origin, origins)
    ensures Handle(origins, request, c) == Outcome(Status(400, InvalidJson), [])
  {
  }

  /** A parsed body from a source that is not allowed is answered 403 and
      nothing is notified or stored. */
  lemma RejectedSourceStopsEverything(origins: seq<string>, request: Request, c: Collaborators)
    requires GetBody(request.contentType, c.json, c.form).Ok?
    requires !Accepts(request.referer, request.origin, origins)
    ensures Handle(origins, request, c) == Outcome(Status(403, InvalidSource), [])
  {
  }

  /** A JSON body that is not an object is refused with 400 "Unsupported
      data type" only once its source is accepted; from a refused source
      the answer is the 403. */
  lemma UnsupportedDataAfterOrigin(origins: seq<string>, request: Request, c: Collaborators)
    requires request.contentType == Some(JsonType) && c.json.JsonParsed? && !c.json.json.Object?
    ensures Accepts(request.referer, request.origin, origins) ==>
      Handle(origins, request, c) == Outcome(Status(400, UnsupportedData), [])
    ensures !Accepts(request.referer, request.origin, origins) ==>
      Handle(origins, request, c) == Outcome(Status(403, InvalidSource), [])
  {
  }

  /** The outside world is touched exactly when the request passes every
      check; an admitted request stores exactly one document. */
  lemma EffectsOnlyWhenAdmitted(origins: seq<string>, request: Request, c: Collaborators)
    ensures Handle(origins, request, c).effects != [] <==> Admitted(origins, request, c)
    ensures Admitted(origins, request, c) ==>
      Insertions(Handle(origins, request, c).effects) == [Written(RecordOf(origins, request, c), c.now, c.newId)]
  {
    if Admitted(origins, request, c) {
      FinishStoresStampedRecord(RecordOf(origins, request, c), c.notify, c.storage, c.now, c.newId, request.redirect);
    }
  }

  /** Notification failures are isolated: the answer and what is stored do
      not depend on whether the notification went out. */
  lemma NotificationDoesNotMatter(origins: seq<string>, request: Request, c: Collaborators)
    ensures Handle(origins, request, c.(notify := Delivered)).response ==
            Handle(origins, request, c.(notify := Raised)).response
    ensures Insertions(Handle(origins, request, c.(notify := Delivered)).effects) ==
            Insertions(Handle(origins, request, c.(notify := Raised)).effects)
  {
    if Admitted(origins, request, c) {
      FinishIgnoresNotification(RecordOf(origins, request, c), c.storage, c.now, c.newId, request.redirect);
    }
  }

  /** A JSON object from an allowed source that is stored without a
      redirect is written once, stamped; it is echoed with 200 (every
      submitted field except "_id" and "timestamp" as sent, "timestamp"
      set, and no "_id") when its fields can be rendered, and answered
      with the uncaught rendering error otherwise. */
  lemma JsonObjectIsEchoed(origins: seq<string>, request: Request, c: Collaborators, fields: Record)
    requires request.contentType == Some(JsonType) && c.json == JsonParsed(Object(fields))
    requires Accepts(request.referer, request.origin, origins)
    requires c.storage.Acknowledged? && request.redirect == ""
    ensures Insertions(Handle(origins, request, c).effects) == [Written(fields, c.now, c.newId)]
    ensures !RenderableRecord(fields - {IdKey, TimestampKey}) ==> Handle(origins, request, c).response == Unhandled
    ensures var r := Handle(origins, request, c).response;
      RenderableRecord(fields - {IdKey, TimestampKey}) ==>
      r.Success? && IdKey !in r.data &&
      TimestampKey in r.data && r.data[TimestampKey] == Str(c.now) &&
      (forall k :: k != TimestampKey && k != IdKey ==> (k in r.data <==> k in fields)) &&
      (forall k :: k != TimestampKey && k != IdKey && k in fields ==> r.data[k] == fields[k])
  {
    FinishStoresStampedRecord(fields, c.notify, c.storage, c.now, c.newId, request.redirect);
    FinishOnStorageSuccess(fields, c.notify, c.now, c.newId, request.redirect);
  }

  /** `{"a": NaN}` is accepted by the JSON decoder and written, but the 200
      echo cannot render it: the client gets a plain 500. */
  lemma NonFiniteNumberIsWrittenButNotEchoed()
    ensures var fields := map["a" := Number("NaN")];
      var c := Collaborators(JsonParsed(Object(fields)), FormParseError, Delivered, Acknowledged, "t", Null);
      var out := Handle([""], Request(Some(JsonType), Some("x"), None, ""), c);
      out.response == Unhandled && Insertions(out.effects) == [Written(fields, "t", Null)]
  {
    var fields := map["a" := Number("NaN")];
    var c := Collaborators(JsonParsed(Object(fields)), FormParseError, Delivered, Acknowledged, "t", Null);
    var request := Request(Some(JsonType), Some("x"), None, "");
    EmptyEntryAcceptsAll(request.referer, request.origin, [""]);
    assert "a" in fields - {IdKey, TimestampKey};
    JsonObjectIsEchoed([""], request, c, fields);
  }

  /** Every answer is one of 200, 302, 400, 403 or 500; 200 and 302 only
      for admitted requests whose write succeeded. */
  lemma ResponseCodes(origins: seq<string>, request: Request, c: Collaborators)
    ensures Code(Handle(origins, request, c).response) in {200, 302, 400, 403, 500}
    ensures Code(Handle(origins, request, c).response) in {200, 302} ==>
      Admitted(origins, request, c) && c.storage.Acknowledged?
  {
  }
}
