/**
 * The generic request handlers (controllers/handlerFactory.js): one set of
 * get / list / create / update / delete operations that works for any
 * collection. Each handler either sends a response (a status code and a
 * `{status, data}` envelope) or forwards a failure to the error middleware.
 */
module HandlerFactory {
  import opened Json
  import opened AppErrors
  import opened Persistence

  /** The parsed query string of a request. */
  type Query = map<string, string>

  /** The `data` part of a response envelope (or the `message` of a plain failure response). */
  datatype Payload =
    | Empty                                    // data: null
    | Wrapped(key: string, doc: Option<Doc>)   // data: {key: doc}
    | Listing(results: nat, docs: seq<Doc>)    // results: n, data: {data: docs}
    | Message(text: string)                    // message: text

  datatype Response = Response(statusCode: int, status: string, payload: Payload)

  /** What a handler passes to `next`: an operational AppError, or a failed write. */
  datatype Failure = Operational(error: AppError) | WriteFailed(reason: WriteError)

  datatype Outcome = Sent(response: Response) | Forwarded(failure: Failure)

  function Success(statusCode: int, payload: Payload): Outcome {
    Sent(Response(statusCode, "success", payload))
  }

  /** The failure every handler reports for a missing document. */
  function NotFound(): (r: Outcome)
    ensures r.Forwarded? && r.failure.Operational?
    ensures r.failure.error.statusCode == 404 && r.failure.error.status == "fail"
    ensures r.failure.error.isOperational
  {
    HttpStatusClass("No document found with that ID", 404);
    Forwarded(Operational(NewAppError("No document found with that ID", 404)))
  }

  /**
   * The base filter of a list request (controllers/handlerFactory.js:75-76):
   * nested under a tour when the route carries a non-empty `tourId`.
   */
  function TourScope(tourId: Option<string>): (filter: seq<Cond>)
    ensures forall d :: MatchesAll(d, filter) <==>
              (tourId.Some? && tourId.value != "" ==> "tour" in d && d["tour"] == Str(tourId.value))
  {
    if tourId.Some? && tourId.value != "" then
      var f := [Eq("tour", Str(tourId.value))];
      assert forall d :: MatchesAll(d, f) <==> Satisfies(d, f[0]);
      f
    else []
  }

  /** DELETE /:id (controllers/handlerFactory.js:5-17). */
  method DeleteOne(c: Collection, id: Id) returns (r: Outcome)
    modifies c
    ensures old(c.Visible(id)) ==> r == Success(204, Empty) && c.docs == old(c.docs) - {id}
    ensures !old(c.Visible(id)) ==> r == NotFound() && c.docs == old(c.docs)
  {
    var doc := c.FindByIdAndDelete(id);
    if doc.None? {
      return NotFound();
    }
    r := Success(204, Empty);
  }

  /** PATCH /:id (controllers/handlerFactory.js:19-36): validated partial update, answered with the new document. */
  method UpdateOne(c: Collection, id: Id, body: Doc) returns (r: Outcome)
    modifies c
    ensures !old(c.Visible(id)) ==> r == NotFound() && c.docs == old(c.docs)
    ensures old(c.Visible(id)) && !c.valid(old(c.docs[id]) + body) ==>
              r == Forwarded(WriteFailed(ValidationFailed)) && c.docs == old(c.docs)
    ensures old(c.Visible(id)) && c.valid(old(c.docs[id]) + body) ==>
              && c.docs == old(c.docs)[id := old(c.docs[id]) + body]
              && r == Success(200, Wrapped("data", Some(c.docs[id])))
  {
    var doc := c.FindByIdAndUpdate(id, body, true);
    match doc
    case NotMatched => r := NotFound();
    case Invalid => r := Forwarded(WriteFailed(ValidationFailed));
    case Updated(d) => r := Success(200, Wrapped("data", Some(d)));
  }

  /** POST / (controllers/handlerFactory.js:38-48), `newId` being the id the store assigns. */
  method CreateOne(c: Collection, newId: Id, body: Doc) returns (r: Outcome)
    modifies c
    ensures !c.valid(c.defaults + body) ==> r == Forwarded(WriteFailed(ValidationFailed)) && c.docs == old(c.docs)
    ensures c.valid(c.defaults + body) && newId in old(c.docs) ==>
              r == Forwarded(WriteFailed(DuplicateKey)) && c.docs == old(c.docs)
    ensures c.valid(c.defaults + body) && newId !in old(c.docs) ==>
              && c.docs == old(c.docs)[newId := c.defaults + body]
              && r == Success(201, Wrapped("data", Some(c.docs[newId])))
  {
    var created := c.Create(newId, body);
    match created
    case Rejected(e) => r := Forwarded(WriteFailed(e));
    case Created(d) => r := Success(201, Wrapped("data", Some(d)));
  }

  /** GET /:id (controllers/handlerFactory.js:50-70); the store is only read. */
  method GetOne(c: Collection, id: Id) returns (r: Outcome)
    ensures c.Visible(id) ==> r == Success(200, Wrapped("doc", Some(c.docs[id])))
    ensures !c.Visible(id) ==> r == NotFound()
  {
    var query := c.FindById(id);
    if query.None? {
      return NotFound();
    }
    r := Success(200, Wrapped("doc", Some(query.value)));
  }

  /**
   * GET / (controllers/handlerFactory.js:72-103). The filter / sort /
   * projection / pagination pipeline is the abstract function `features`,
   * applied to the documents the scoped `find` selects.
   */
  method GetAll(c: Collection, tourId: Option<string>, query: Query,
                features: (map<Id, Doc>, Query) -> seq<Doc>) returns (r: Outcome)
    ensures r.Sent? && r.response.statusCode == 200 && r.response.status == "success"
    ensures r.response.payload.Listing?
    ensures r.response.payload.docs == features(c.Find(TourScope(tourId)), query)
    ensures r.response.payload.results == |r.response.payload.docs|
  {
    var filter := TourScope(tourId);
    var doc := features(c.Find(filter), query);
    r := Success(200, Listing(|doc|, doc));
  }

  /** A created document can be read back by its id, unless the query middleware hides it. */
  method CreateThenGet(c: Collection, newId: Id, body: Doc) returns (created: Outcome, fetched: Outcome)
    modifies c
    ensures created.Sent? && MatchesAll(c.defaults + body, c.middleware) ==>
              fetched == Success(200, Wrapped("doc", Some(c.defaults + body)))
    ensures created.Sent? ==> created.response.statusCode == 201
    ensures created.Sent? ==> c.docs == old(c.docs)[newId := c.defaults + body]
    ensures created.Forwarded? ==> c.docs == old(c.docs)
  {
    created := CreateOne(c, newId, body);
    fetched := GetOne(c, newId);
  }

  /** After a delete, the same id is not found. */
  method DeleteThenGet(c: Collection, id: Id) returns (deleted: Outcome, fetched: Outcome)
    modifies c
    ensures fetched == NotFound()
    ensures old(c.Visible(id)) ==> deleted == Success(204, Empty) && c.docs == old(c.docs) - {id}
    ensures !old(c.Visible(id)) ==> deleted == NotFound() && c.docs == old(c.docs)
  {
    deleted := DeleteOne(c, id);
    fetched := GetOne(c, id);
  }
}
