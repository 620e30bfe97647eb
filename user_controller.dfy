/**
 * The self-service user handlers (controllers/userController.js): the
 * allow-list projection `filterObj`, `getMe`, `updateMe`, `deleteMe` and the
 * `createUser` placeholder. The acting user's id is the one the
 * authentication guard attached to the request.
 */
module UserController {
  import opened Json
  import opened AppErrors
  import opened Persistence
  import opened HandlerFactory
  import opened UserModel

  /** The fields a user may change about themself (controllers/userController.js:34). */
  const SelfEditable: seq<string> := ["name", "email"]

  /** The request fields the handlers here touch. */
  class Request {
    var params: map<string, string>
    var body: Doc

    constructor (params: map<string, string>, body: Doc)
      ensures this.params == params && this.body == body
    {
      this.params := params;
      this.body := body;
    }
  }

  /** The fields of `obj` whose names are listed in `allowedFields`, with their values. */
  ghost function Projection(obj: Doc, allowedFields: seq<string>): Doc {
    map k | k in obj && k in allowedFields :: obj[k]
  }

  /** `filterObj`: copies the allowed fields of `obj`, one key at a time. */
  method FilterObj(obj: Doc, allowedFields: seq<string>) returns (newObj: Doc)
    ensures newObj == Projection(obj, allowedFields)
  {
    newObj := map[];
    var keys := obj.Keys;
    while keys != {}
      invariant keys <= obj.Keys
      invariant forall k :: k in newObj <==> k in obj && k !in keys && k in allowedFields
      invariant forall k :: k in newObj ==> newObj[k] == obj[k]
      decreases keys
    {
      var el :| el in keys;
      if el in allowedFields {
        newObj := newObj[el := obj[el]];
      }
      keys := keys - {el};
    }
    assert newObj.Keys == Projection(obj, allowedFields).Keys;
  }

  /** The body tries to set a password (truthy `password` or `passwordConfirm`). */
  predicate PasswordAttempt(body: Doc) {
    Truthy(body, "password") || Truthy(body, "passwordConfirm")
  }

  const PasswordRouteMessage := "This route is not for password updates. Please use /updateMyPassword"

  /** `getMe`: binds the acting user's id as the `id` route parameter. */
  method GetMe(req: Request, actingId: Id)
    modifies req
    ensures req.params == old(req.params)["id" := actingId] && req.body == old(req.body)
  {
    req.params := req.params["id" := actingId];
  }

  /** GET /me: `getMe` followed by the generic `getOne` on the user collection (routes/userRoutes.js:19). */
  method Me(users: Collection, req: Request, actingId: Id) returns (r: Outcome)
    modifies req
    ensures req.params == old(req.params)["id" := actingId] && req.body == old(req.body)
    ensures users.Visible(actingId) ==> r == Success(200, Wrapped("doc", Some(users.docs[actingId])))
    ensures !users.Visible(actingId) ==> r == NotFound()
  {
    GetMe(req, actingId);
    r := GetOne(users, req.params["id"]);
  }

  /**
   * `updateMe`: a body that tries to set a password is refused with a 400
   * and changes nothing; otherwise only its `name` and `email` are applied
   * to the acting user, with validation, and the updated user (or null, when
   * no active user has that id) is returned.
   */
  method UpdateMe(users: Collection, actingId: Id, body: Doc) returns (r: Outcome)
    modifies users
    ensures PasswordAttempt(body) ==>
              && r.Forwarded? && r.failure.Operational?
              && r.failure.error == NewAppError(PasswordRouteMessage, 400)
              && r.failure.error.status == "fail"
              && users.docs == old(users.docs)
    ensures !PasswordAttempt(body) && !old(users.Visible(actingId)) ==>
              r == Success(200, Wrapped("user", None)) && users.docs == old(users.docs)
    ensures !PasswordAttempt(body) && old(users.Visible(actingId))
            && !users.valid(old(users.docs[actingId]) + Projection(body, SelfEditable)) ==>
              r == Forwarded(WriteFailed(ValidationFailed)) && users.docs == old(users.docs)
    ensures !PasswordAttempt(body) && old(users.Visible(actingId))
            && users.valid(old(users.docs[actingId]) + Projection(body, SelfEditable)) ==>
              && users.docs == old(users.docs)[actingId := old(users.docs[actingId]) + Projection(body, SelfEditable)]
              && r == Success(200, Wrapped("user", Some(users.docs[actingId])))
  {
    if PasswordAttempt(body) {
      HttpStatusClass(PasswordRouteMessage, 400);
      return Forwarded(Operational(NewAppError(PasswordRouteMessage, 400)));
    }
    var filteredBody := FilterObj(body, SelfEditable);
    var updatedUser := users.FindByIdAndUpdate(actingId, filteredBody, true);
    match updatedUser
    case Invalid => r := Forwarded(WriteFailed(ValidationFailed));
    case NotMatched => r := Success(200, Wrapped("user", None));
    case Updated(d) => r := Success(200, Wrapped("user", Some(d)));
  }

  /**
   * The update `updateMe` applies changes at most `name` and `email`: every
   * other field, `role` and `password` included, keeps its value, and the
   * two allowed fields take the body's values.
   */
  lemma SelfUpdateFrame(user: Doc, body: Doc)
    ensures var after := user + Projection(body, SelfEditable);
            && (forall k :: k != "name" && k != "email" ==>
                  (k in after <==> k in user) && (k in user ==> after[k] == user[k]))
            && ("name" in body ==> after["name"] == body["name"])
            && ("email" in body ==> after["email"] == body["email"])
  {
  }

  /** A body with a new role and a new name changes only the name. */
  lemma RoleIsSilentlyDropped(user: Doc, role: string, name: string)
    ensures var body := map["role" := Str(role), "name" := Str(name)];
            !PasswordAttempt(body) && user + Projection(body, SelfEditable) == user["name" := Str(name)]
  {
    var body := map["role" := Str(role), "name" := Str(name)];
    assert Projection(body, SelfEditable) == map["name" := Str(name)];
  }

  /**
   * `deleteMe`: marks the acting user inactive (no validation) and answers
   * 204; afterwards no find query on the user collection sees that user.
   */
  method DeleteMe(users: Collection, actingId: Id) returns (r: Outcome)
    requires users.middleware == Middleware
    modifies users
    ensures r == Success(204, Empty)
    ensures old(users.Visible(actingId)) ==>
              users.docs == old(users.docs)[actingId := old(users.docs[actingId])["active" := Bool(false)]]
    ensures !old(users.Visible(actingId)) ==> users.docs == old(users.docs)
    ensures !users.Visible(actingId) && users.FindById(actingId).None?
  {
    var _ := users.FindByIdAndUpdate(actingId, map["active" := Bool(false)], false);
    if actingId in users.docs {
      ActiveFilterCases(old(users.docs[actingId]), false);
      assert old(users.docs[actingId])["active" := Bool(false)] == old(users.docs[actingId]) + map["active" := Bool(false)];
    }
    r := Success(204, Empty);
  }

  /** POST / on users: not implemented, always a 500 whose status agrees with the error classification. */
  method CreateUser() returns (r: Outcome)
    ensures r.Sent? && r.response.statusCode == 500 && r.response.status == "error"
    ensures r.response.payload.Message?
    ensures r.response.status == NewAppError(r.response.payload.text, 500).status
  {
    var message := "This route is not yet defined! Please use /signup instead!";
    HttpStatusClass(message, 500);
    r := Sent(Response(500, "error", Message(message)));
  }
}
