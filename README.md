# WeTour API: user credentials and generic CRUD handlers, in Dafny

This project models the core of a REST backend for a tour-booking site
(an Express/Mongoose application). It covers four parts:

- **The user record** (`models/userModel.js`). This part holds the schema defaults and validators, the soft-delete
  condition that the pre-find hook adds to every `find*` query, and the two
  pre-save hooks. One hashes a modified password and drops `passwordConfirm`. The other back-dates
  `passwordChangedAt` by one second when an existing user's password changes. It also holds
  `changedPasswordAfter` and `createPasswordResetToken`.
- **The handler factory** (`controllers/handlerFactory.js`). These are the
  generic `getOne`, `getAll`, `createOne`, `updateOne` and `deleteOne` handlers over any collection.
  Each handler sends a `{status, data}` envelope or forwards a failure to `next`.
- **The self-service user handlers** (`controllers/userController.js`). These are `filterObj`,
  `getMe`, `updateMe`, `deleteMe` and `createUser`.
- **The operational error** (`utils/appError.js`). Its status text is `"fail"` when the
  decimal rendering of the code starts with `4`, and `"error"` otherwise.

## Layout

| file | module | contents |
|---|---|---|
| `json.dfy` | `Json` | JSON-like values, documents as `map<string, Value>`, JavaScript truthiness |
| `app_error.dfy` | `AppErrors` | `AppError`, decimal rendering, the status classification and its numeric characterisation |
| `persistence.dfy` | `Persistence` | query conditions (`{p: v}`, `{p: {$ne: v}}`) and the `Collection` class, which models the store primitives |
| `handler_factory.dfy` | `HandlerFactory` | response envelopes and the five generic handlers |
| `hex.dfy` | `Hex` | lower-case hex rendering of bytes, with a decoder and a round-trip proof |
| `user_model.dfy` | `UserModel` | the user schema, the hooks, `changedPasswordAfter`, and the `UserDocument` class with change tracking |
| `user_controller.dfy` | `UserController` | the self-service handlers |

The store is a `Collection` object. It holds `docs: map<Id, Doc>`, and its methods update that map. Each collection also carries three pieces of per-model behaviour:

- the conditions its query middleware adds to every `find*` query (`findById`,
  `find`, `findByIdAndUpdate` and `findByIdAndDelete` all match `/^find/`), which for users is `{active: {$ne: false}}`;
- its schema defaults;
- its validators, as an abstract predicate on the resulting document.

Foreign calls are parameters:

- bcrypt's `hash` is a function `string -> string`, one per call, which stands in for the fresh salt.
- sha256's hex digest is a function `string -> string`.
- `crypto.randomBytes(32)` is a 32-byte sequence.
- `Date.now()` is `now`, a `nat` in milliseconds.
- The id the store assigns on create is `newId`.
- The `APIFeatures` pipeline of `getAll` is an abstract function of the scoped documents and the query string.

The model follows the code as written, including in these places:

- `updateMe` *rejects* a truthy `password` or `passwordConfirm` with a 400. It does not filter them out silently. Other fields, such as `role`, are silently dropped.
- `changedPasswordAfter` compares the token's second with the change time *truncated* to whole seconds. A token from the same second therefore counts as "not changed".
- `changedPasswordAfter` truncates toward zero. For a change time before the epoch, which happens when `now < 1000`, truncating toward zero gives a different result than taking the floor.
- `updateMe` for an acting id that no active user has answers 200 with `user: null`. It does not answer 404.
- For the user collection, the find middleware also applies to `findByIdAndUpdate` and `findByIdAndDelete`. So an inactive user is "not found" by the generic get, update and delete handlers.

## Model

| member | source | states |
|---|---|---|
| AppErrors.NewAppError | utils/appError.js:4-13 | message and statusCode kept as given, isOperational true, status "fail" iff the code lies in [4·10^k, 5·10^k) for some k, otherwise "error" |
| AppErrors.StatusOfIsLeadingFour | utils/appError.js:10 | the string test "decimal rendering starts with 4" equals the numeric leading-digit-4 test, negative codes included |
| AppErrors.LeadingDigitFour | utils/appError.js:10 | for n ≥ 0 the arithmetic leading digit is 4 iff n lies in some [4·10^k, 5·10^k) |
| AppErrors.DigitsHead | utils/appError.js:10 | the first character of the decimal rendering is the leading digit |
| AppErrors.HttpStatusClass | utils/appError.js:10 | for a three-digit code, status is "fail" iff 400 ≤ code ≤ 499 and "error" otherwise (so 400 and 404 fail, 500 errors) |
| Persistence.Collection.FindById | controllers/handlerFactory.js:53-57 | a document is returned iff it is stored under the id and passes the model's find middleware |
| Persistence.Collection.Find | controllers/handlerFactory.js:83 | exactly the stored documents that pass the middleware and the filter, with their stored values |
| Persistence.Collection.FindByIdAndUpdate | controllers/handlerFactory.js:21-24 | a miss changes nothing; a failed validation changes nothing; otherwise the patch fields are set on that document only, and the post-update document is returned |
| Persistence.Collection.FindByIdAndDelete | controllers/handlerFactory.js:7 | removes exactly the matched key and returns its document; a miss changes nothing |
| Persistence.Collection.Create | controllers/handlerFactory.js:40 | defaults are filled in, then validated; an invalid document or a taken id leaves the store unchanged; otherwise exactly that document is added |
| HandlerFactory.NotFound | controllers/handlerFactory.js:9-11 | the miss failure is an operational AppError with code 404 and status "fail" |
| HandlerFactory.TourScope | controllers/handlerFactory.js:75-76 | a document matches the base filter iff, when tourId is non-empty, its `tour` equals tourId; with no tourId everything matches |
| HandlerFactory.DeleteOne | controllers/handlerFactory.js:5-17 | hit: exactly that key removed, 204 with null data; miss: 404 and store unchanged |
| HandlerFactory.UpdateOne | controllers/handlerFactory.js:19-36 | miss: 404 and store unchanged; invalid: validation failure and store unchanged; hit: only that id changes, 200 with the post-update document |
| HandlerFactory.CreateOne | controllers/handlerFactory.js:38-48 | 201 with the created document, and the store gains exactly that document; otherwise the write error and the store unchanged |
| HandlerFactory.GetOne | controllers/handlerFactory.js:50-70 | 200 with the stored document when visible, otherwise 404; nothing is modified |
| HandlerFactory.GetAll | controllers/handlerFactory.js:72-103 | 200 "success"; the list is the pipeline applied to the tour-scoped find; results equals the list length |
| HandlerFactory.CreateThenGet | controllers/handlerFactory.js:38-70 | a successful create answers 201 and adds exactly that document to the store, and reading the new id back returns it when the middleware lets it through; a failed create leaves the store unchanged |
| HandlerFactory.DeleteThenGet | controllers/handlerFactory.js:5-70 | after deleteOne, getOne on the same id is a 404; a visible id was deleted (204, exactly that key removed), otherwise the delete was itself a 404 that changed nothing |
| Hex.HexEncode | models/userModel.js:105 | the rendering of n bytes has 2n characters, each a hex digit |
| Hex.HexRoundTrip | models/userModel.js:105 | decoding the hex rendering gives back the bytes |
| UserModel.Utf16Length | models/userModel.js:29 | the length `minlength` measures is the string's UTF-16 length: between the character count and twice it, and equal to the character count when every character is in the Basic Multilingual Plane |
| UserModel.AstralCharactersCountTwice | models/userModel.js:29 | a password of four emoji has JavaScript length 8 and passes `minlength: 8` |
| UserModel.SignupBodyValid | models/userModel.js:6-51 | a signup body over the defaults passes the required, enum, minlength and confirm validators iff name and email are non-empty, the password has at least 8 UTF-16 code units, and the confirmation equals the password |
| UserModel.NewUserDefaults | models/userModel.js:21-25 | a new user without a role gets role "user", which passes the role enum; a given role validates iff it is one of user, guide, lead-guide, admin; without `active` the user is active |
| UserModel.PasswordConfirmIff | models/userModel.js:35-41 | the passwordConfirm validator passes iff the confirmation equals the password |
| UserModel.ActiveFilterCases | models/userModel.js:77-81 | the find filter keeps a user iff `active` is not false: absent or true is kept, a soft-deleted user is not |
| UserModel.TruncSeconds | models/userModel.js:92-95 | the change second is the millisecond time divided by 1000 and truncated toward zero |
| UserModel.ChangedPasswordAfter | models/userModel.js:90-101 | false without a change time; with change time ms ≥ 0 true iff (JWTTimestamp + 1)·1000 ≤ ms; with ms < 0 true iff JWTTimestamp·1000 < ms |
| UserModel.SameSecondIsNotAfter | models/userModel.js:92-97 | a token stamped in the truncated change second counts as not changed |
| UserModel.HashedOnSave | models/userModel.js:53-63 | password not modified: document untouched; modified: password becomes hash(plaintext), passwordConfirm removed, every other field unchanged; no password: bcrypt rejects |
| UserModel.StampedOnSave | models/userModel.js:65-74 | passwordChangedAt becomes now − 1000 only for a modified password on a non-new document; otherwise the document is unchanged; no other field changes |
| UserModel.HooksPreserveTyping | models/userModel.js:53-74 | both hooks keep every schema path at its declared type |
| UserModel.TokenIssuedAroundChangeIsAccepted | models/userModel.js:69-72 | after a password change saved at `now`, a token issued at or after now − 1000 ms is not treated as predating the change |
| UserModel.TokenIssuedBeforeChangeIsRejected | models/userModel.js:65-74 | a token from a whole second before the back-dated change time is treated as predating the change |
| UserModel.NewUserKeepsNoChangeTime | models/userModel.js:67 | saving a new user never stamps a change time, so no token is rejected because of it |
| UserModel.UserDocument.New | models/userModel.js:6-51 | a new document holds the schema defaults overridden by the body, is new, and counts the given fields as modified |
| UserModel.UserDocument.Load | models/userModel.js:118 | a loaded document is not new and has no modified paths |
| UserModel.UserDocument.Set | models/userModel.js:55 | assigning a path sets it; it is marked modified (what `isModified` reads) unless the document is stored and the path already held that value |
| UserModel.UserDocument.HashPasswordOnSave | models/userModel.js:53-63 | the document's fields become the first hook's result; when bcrypt rejects, they are unchanged |
| UserModel.UserDocument.StampPasswordChangedAt | models/userModel.js:65-74 | the document's fields become the second hook's result |
| UserModel.UserDocument.Save | models/userModel.js:35-74 | validators first; a failure changes nothing; otherwise the hooks run in order, the result is written to the store, and the document is no longer new or modified |
| UserModel.UserDocument.CreatePasswordResetToken | models/userModel.js:103-116 | returns the 64-character hex of the 32 random bytes, which decodes back to those bytes; stores sha256(token) and an expiry of exactly now + 600000; nothing else changes |
| UserController.FilterObj | controllers/userController.js:7-13 | the result is the projection of the input onto the allowed list: exactly the input keys in the list, each with the input's value; the input is a value and is not changed |
| UserController.GetMe | controllers/userController.js:15-18 | `params.id` becomes the acting user's id; nothing else changes |
| UserController.Me | routes/userRoutes.js:19 | GET /me binds `params.id` to the acting user and leaves the body unchanged; it answers 200 with the acting user when active, otherwise 404 |
| UserController.UpdateMe | controllers/userController.js:20-51 | truthy password or passwordConfirm: 400 "fail" and no update; otherwise only the name/email projection is applied to the acting user (validated), answering 200 with the updated user or null |
| UserController.SelfUpdateFrame | controllers/userController.js:34-43 | the applied update changes at most name and email; role, password and every other field keep their values |
| UserController.RoleIsSilentlyDropped | controllers/userController.js:34 | a body `{role, name}` is accepted and changes only the name |
| UserController.DeleteMe | controllers/userController.js:53-60 | sets only `active := false` on the acting user, answers 204 with null data, and afterwards findById no longer returns that user |
| UserController.CreateUser | controllers/userController.js:62-67 | always 500 with status "error", which agrees with the AppError classification of 500 |

## Left out

- `correctPassword` (`bcrypt.compare`) is a pure foreign call with no logic of its own, so it is not modelled.
- bcrypt, sha256, `crypto.randomBytes` and `Date.now()` are parameters. The model says nothing about their output, and nothing about hash collisions or fixed points.
- `validator.isEmail`, the `lowercase` setter on `email` and the unique index on `email` are not modelled. They are foreign or store-side checks.
- Persistence.Collection.FindByIdAndUpdate: Mongoose's update validators run only on the updated paths. Here `runValidators` is the collection's abstract predicate applied to the whole updated document. Mongoose also validates the patch before it looks the document up, while the model looks first. So for an absent or inactive id with a patch the validators reject (say `{role: "superuser"}`), the model answers as for a miss. HandlerFactory.UpdateOne gives 404 where the code gives a validation error, and UserController.UpdateMe gives 200 with `user: null`.
- Casting of body values to schema types, strict-mode dropping of unknown paths, `populate` (the `popOptions` of `getOne` and the `reviews` of `getAll`) and `select: false` serialisation are Mongoose internals. They are not modelled.
- The `APIFeatures` pipeline (filter, sort, field projection, pagination) is not part of this model. `getAll` treats it as an abstract function. Nothing is claimed about pagination or ordering.
- The authentication controller is not part of this model. That covers signup, login, protect, restrictTo, password reset and reset-token verification. The acting user's id is a parameter.
- `catchAsync`, the asynchronous control flow, and store failures other than validation errors and duplicate ids are not modelled.
- The document's `_id` field is represented by the store key. It is not a field of the document.
- UserModel.UserDocument.Save writes the whole document to the store, whereas Mongoose writes only the modified paths. It does not reject a new document whose id is already taken.
- Persistence.Collection.Create does not run the user pre-save hooks. The user route that would call it (`createUser`) always answers 500, and signup is not part of this model.
- The pre-save hooks do not mark the paths they assign as modified. `Save` clears the modified set afterwards, so this is not observable.
- The `console.log` of the two timestamps in `changedPasswordAfter` (models/userModel.js:96) is output only, and is not modelled.
- Numbers are integers. Floating-point values, `NaN`, and the exponent notation that `parseInt` would meet above 10^21 are not modelled.
- `app.js`, `server.js` and the route table are not modelled. They are middleware wiring, process bootstrap and routing. The one exception is the `/me` composition in `UserController.Me`.
