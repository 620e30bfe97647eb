/**
 * The user schema (models/userModel.js): its defaults and validators, the
 * soft-delete condition added to every find query, the two pre-save hooks,
 * and the document methods `changedPasswordAfter` and
 * `createPasswordResetToken`.
 *
 * A user document is a field map (see module Json). bcrypt's `hash` and
 * sha256's hex digest are function-valued parameters; the 32 random bytes
 * of a reset token and the current time `now` (milliseconds) are
 * parameters too.
 */
module UserModel {
  import opened Json
  import opened Persistence
  import opened Hex

  const Roles: seq<string> := ["user", "guide", "lead-guide", "admin"]
  const PasswordMinLength := 8
  /** Lifetime of a reset token: ten minutes. */
  const ResetTokenLifetimeMs := 10 * 60 * 1000
  /** How far `passwordChangedAt` is back-dated on a password change. */
  const ChangeMarginMs := 1000
  const ResetTokenBytes := 32

  /** Schema defaults: role "user", active true. */
  const Defaults: Doc := map["role" := Str("user"), "active" := Bool(true)]

  /** The condition the pre-find hook adds: `{active: {$ne: false}}`. */
  const ActiveOnly := Ne("active", Bool(false))

  /** The query middleware of the user collection. */
  const Middleware: seq<Cond> := [ActiveOnly]

  // ---------------------------------------------------------------------
  // Field types and validators

  predicate StrOrAbsent(d: Doc, p: string) { p in d ==> d[p].Str? }
  predicate DateOrAbsent(d: Doc, p: string) { p in d ==> d[p].Date? }

  /** Every schema path that is present holds a value of its declared type. */
  predicate WellTyped(d: Doc) {
    && StrOrAbsent(d, "name") && StrOrAbsent(d, "email") && StrOrAbsent(d, "photo")
    && StrOrAbsent(d, "role") && StrOrAbsent(d, "password") && StrOrAbsent(d, "passwordConfirm")
    && StrOrAbsent(d, "passwordResetToken")
    && DateOrAbsent(d, "passwordChangedAt") && DateOrAbsent(d, "passwordResetExpires")
    && ("active" in d ==> d["active"].Bool?)
  }

  /** The `required` validator: present, not null, not the empty string. */
  predicate Present(d: Doc, p: string) {
    p in d && d[p] != Null && d[p] != Str("")
  }

  /** The role enum validator. */
  predicate RoleValid(d: Doc) {
    "role" in d ==> d["role"].Str? && d["role"].s in Roles
  }

  /**
   * The length JavaScript reports for a string: its UTF-16 code units, so a
   * character outside the Basic Multilingual Plane counts twice.
   */
  function Utf16Length(s: string): (n: nat)
    ensures |s| <= n <= 2 * |s|
    ensures (forall i :: 0 <= i < |s| ==> s[i] as int < 0x10000) ==> n == |s|
  {
    if |s| == 0 then 0
    else Utf16Length(s[..|s| - 1]) + (if s[|s| - 1] as int >= 0x10000 then 2 else 1)
  }

  /** `minlength: 8` on the password, measured in UTF-16 code units. */
  predicate PasswordLengthValid(d: Doc) {
    "password" in d && d["password"].Str? ==> Utf16Length(d["password"].s) >= PasswordMinLength
  }

  /** Four emoji make a password of JavaScript length 8, which `minlength: 8` accepts. */
  lemma AstralCharactersCountTwice()
    ensures var pw := "\U{1F600}\U{1F600}\U{1F600}\U{1F600}";
            |pw| == 4 && Utf16Length(pw) == 8 && PasswordLengthValid(map["password" := Str(pw)])
  {
    var pw := "\U{1F600}\U{1F600}\U{1F600}\U{1F600}";
    var c := '\U{1F600}';
    assert pw == [c, c, c, c];
    assert Utf16Length([c]) == 2 by { assert [c][..0] == []; }
    assert Utf16Length([c, c]) == 4 by { assert [c, c][..1] == [c]; }
    assert Utf16Length([c, c, c]) == 6 by { assert [c, c, c][..2] == [c, c]; }
    assert [c, c, c, c][..3] == [c, c, c];
  }

  /** The custom passwordConfirm validator `el === this.password`; it is not run on a missing value. */
  predicate PasswordConfirmValid(d: Doc) {
    "passwordConfirm" in d ==> "password" in d && d["passwordConfirm"] == d["password"]
  }

  /** The validators run by `save()` on a user document. */
  predicate SchemaValid(d: Doc) {
    && WellTyped(d)
    && Present(d, "name") && Present(d, "email") && Present(d, "password") && Present(d, "passwordConfirm")
    && RoleValid(d) && PasswordLengthValid(d) && PasswordConfirmValid(d)
  }

  /**
   * A signup body with all four required fields, stored over the defaults,
   * passes the validators exactly when name and email are non-empty, the
   * password has at least 8 code units and the confirmation equals it.
   */
  lemma SignupBodyValid(name: string, email: string, password: string, confirm: string)
    ensures var d := Defaults + map["name" := Str(name), "email" := Str(email),
                                    "password" := Str(password), "passwordConfirm" := Str(confirm)];
            SchemaValid(d) <==> name != "" && email != "" && Utf16Length(password) >= PasswordMinLength && confirm == password
  {
    var d := Defaults + map["name" := Str(name), "email" := Str(email),
                            "password" := Str(password), "passwordConfirm" := Str(confirm)];
    assert d == map["role" := Str("user"), "active" := Bool(true), "name" := Str(name), "email" := Str(email),
                    "password" := Str(password), "passwordConfirm" := Str(confirm)];
    assert WellTyped(d) && RoleValid(d);
    assert Present(d, "name") <==> name != "";
    assert Present(d, "email") <==> email != "";
    assert PasswordLengthValid(d) <==> Utf16Length(password) >= PasswordMinLength;
    assert PasswordConfirmValid(d) <==> confirm == password;
    if Utf16Length(password) >= PasswordMinLength {
      assert password != "";
    }
    assert Present(d, "password") && Present(d, "passwordConfirm") && PasswordConfirmValid(d) && PasswordLengthValid(d)
           <==> Utf16Length(password) >= PasswordMinLength && confirm == password;
  }

  /** A new user gets role "user" and active true unless the body says otherwise. */
  lemma NewUserDefaults(body: Doc)
    ensures "role" !in body ==> (Defaults + body)["role"] == Str("user") && RoleValid(Defaults + body)
    ensures "role" in body ==> (RoleValid(Defaults + body) <==> body["role"].Str? && body["role"].s in Roles)
    ensures "active" !in body ==> Satisfies(Defaults + body, ActiveOnly)
  {
  }

  /** The confirmation validates exactly when it equals the password. */
  lemma PasswordConfirmIff(d: Doc, password: string, confirm: string)
    ensures var e := d["password" := Str(password)]["passwordConfirm" := Str(confirm)];
            PasswordConfirmValid(e) <==> password == confirm
  {
  }

  // ---------------------------------------------------------------------
  // Pre-find hook: soft-deleted users are invisible

  /** A user document passes the pre-find filter. */
  predicate IsActive(d: Doc) {
    MatchesAll(d, Middleware)
  }

  /** Kept iff `active` is not false: absent or true is kept, a soft-deleted user is not. */
  lemma ActiveFilterCases(d: Doc, b: bool)
    ensures "active" !in d ==> IsActive(d)
    ensures IsActive(d["active" := Bool(b)]) <==> b
    ensures WellTyped(d) ==> (IsActive(d) <==> "active" !in d || d["active"] == Bool(true))
  {
    forall e: Doc ensures IsActive(e) <==> Satisfies(e, ActiveOnly) {
      assert Middleware[0] == ActiveOnly;
    }
  }

  // ---------------------------------------------------------------------
  // changedPasswordAfter

  function PasswordChangedAt(user: Doc): Option<int> {
    if "passwordChangedAt" in user && user["passwordChangedAt"].Date? then Some(user["passwordChangedAt"].ms)
    else None
  }

  /** `parseInt(ms / 1000, 10)`: the quotient truncated toward zero. */
  function TruncSeconds(ms: int): (s: int)
    ensures ms >= 0 ==> s * 1000 <= ms < (s + 1) * 1000
    ensures ms < 0 ==> (s - 1) * 1000 < ms <= s * 1000
  {
    if ms >= 0 then ms / 1000 else -((-ms) / 1000)
  }

  /**
   * Whether the password was changed after a token issued at
   * `jwtTimestamp` (whole seconds): false without a change time, otherwise
   * the token's second must lie strictly before the truncated change second.
   */
  function ChangedPasswordAfter(user: Doc, jwtTimestamp: int): (changed: bool)
    ensures PasswordChangedAt(user).None? ==> !changed
    ensures PasswordChangedAt(user).Some? && PasswordChangedAt(user).value >= 0 ==>
              (changed <==> (jwtTimestamp + 1) * 1000 <= PasswordChangedAt(user).value)
    ensures PasswordChangedAt(user).Some? && PasswordChangedAt(user).value < 0 ==>
              (changed <==> jwtTimestamp * 1000 < PasswordChangedAt(user).value)
  {
    match PasswordChangedAt(user)
    case Some(ms) =>
      var changedTimestamp := TruncSeconds(ms);
      jwtTimestamp < changedTimestamp
    case None => false
  }

  /** A token stamped in the same (truncated) second as the change still counts as unchanged. */
  lemma SameSecondIsNotAfter(user: Doc, ms: int)
    requires PasswordChangedAt(user) == Some(ms)
    ensures !ChangedPasswordAfter(user, TruncSeconds(ms))
  {
  }

  // ---------------------------------------------------------------------
  // Pre-save hooks

  function PasswordOf(d: Doc): Option<string> {
    if "password" in d && d["password"].Str? then Some(d["password"].s) else None
  }

  /**
   * The first pre-save hook (models/userModel.js:53-63) as a function of
   * the document: None when bcrypt would be handed no password.
   */
  function HashedOnSave(fields: Doc, modified: set<string>, hash: string -> string): (r: Option<Doc>)
    ensures "password" !in modified ==> r == Some(fields)
    ensures "password" in modified && PasswordOf(fields).None? ==> r == None
    ensures "password" in modified && PasswordOf(fields).Some? ==>
              && r.Some?
              && "password" in r.value && r.value["password"] == Str(hash(PasswordOf(fields).value))
              && "passwordConfirm" !in r.value
              && forall k :: k != "password" && k != "passwordConfirm" ==>
                   (k in r.value <==> k in fields) && (k in fields ==> r.value[k] == fields[k])
  {
    if "password" !in modified then Some(fields)
    else match PasswordOf(fields)
      case None => None
      case Some(plain) => Some(fields["password" := Str(hash(plain))] - {"passwordConfirm"})
  }

  /** The second pre-save hook (models/userModel.js:65-74) as a function of the document. */
  function StampedOnSave(fields: Doc, isNew: bool, modified: set<string>, now: nat): (r: Doc)
    ensures "password" in modified && !isNew ==> PasswordChangedAt(r) == Some(now - ChangeMarginMs)
    ensures !("password" in modified && !isNew) ==> r == fields
    ensures forall k :: k != "passwordChangedAt" ==> (k in r <==> k in fields) && (k in fields ==> r[k] == fields[k])
  {
    if "password" !in modified || isNew then fields
    else fields["passwordChangedAt" := Date(now - ChangeMarginMs)]
  }

  lemma HooksPreserveTyping(fields: Doc, isNew: bool, modified: set<string>, hash: string -> string, now: nat)
    requires WellTyped(fields)
    ensures HashedOnSave(fields, modified, hash).Some? ==> WellTyped(HashedOnSave(fields, modified, hash).value)
    ensures WellTyped(StampedOnSave(fields, isNew, modified, now))
  {
  }

  /**
   * The back-dating margin: after a save at `now` that changes the
   * password, a token issued no earlier than one second before `now` is
   * still accepted ...
   */
  lemma TokenIssuedAroundChangeIsAccepted(fields: Doc, modified: set<string>, now: nat, issuedMs: nat)
    requires "password" in modified
    requires issuedMs + ChangeMarginMs >= now
    ensures !ChangedPasswordAfter(StampedOnSave(fields, false, modified, now), issuedMs / 1000)
  {
  }

  /** ... while a token issued in an earlier second than the back-dated change time is rejected. */
  lemma TokenIssuedBeforeChangeIsRejected(fields: Doc, modified: set<string>, now: nat, iat: int)
    requires "password" in modified
    requires now >= ChangeMarginMs && (iat + 1) * 1000 <= now - ChangeMarginMs
    ensures ChangedPasswordAfter(StampedOnSave(fields, false, modified, now), iat)
  {
  }

  /** A newly created user never gets a change time from saving. */
  lemma NewUserKeepsNoChangeTime(fields: Doc, modified: set<string>, now: nat, jwtTimestamp: int)
    requires PasswordChangedAt(fields).None?
    ensures !ChangedPasswordAfter(StampedOnSave(fields, true, modified, now), jwtTimestamp)
  {
  }

  // ---------------------------------------------------------------------
  // A user document with Mongoose's change tracking

  datatype SaveResult = Saved | ValidationError | HashRejected

  class UserDocument {
    const id: Id
    var fields: Doc
    /** Not yet stored. */
    var isNew: bool
    /** Paths assigned since the document was created or loaded. */
    var modified: set<string>

    predicate Valid()
      reads this
    {
      WellTyped(fields)
    }

    /** `new User(body)`: schema defaults for the missing fields; every given field counts as modified. */
    constructor New(id: Id, body: Doc)
      requires WellTyped(body)
      ensures this.id == id && fields == Defaults + body && isNew && modified == body.Keys
      ensures Valid()
    {
      this.id := id;
      fields := Defaults + body;
      isNew := true;
      modified := body.Keys;
    }

    /** A document read back from the store. */
    constructor Load(id: Id, stored: Doc)
      requires WellTyped(stored)
      ensures this.id == id && fields == stored && !isNew && modified == {}
      ensures Valid()
    {
      this.id := id;
      fields := stored;
      isNew := false;
      modified := {};
    }

    /**
     * Assigning a schema path, e.g. `user.password = ...`. On a stored
     * document, assigning the value the path already holds does not mark it
     * modified; on a new document every assignment does.
     */
    method Set(path: string, v: Value)
      requires Valid() && WellTyped(fields[path := v])
      modifies this
      ensures Valid()
      ensures fields == old(fields)[path := v] && isNew == old(isNew)
      ensures old(isNew) || path !in old(fields) || old(fields)[path] != v ==> modified == old(modified) + {path}
      ensures !old(isNew) && path in old(fields) && old(fields)[path] == v ==> modified == old(modified)
    {
      if isNew || path !in fields || fields[path] != v {
        modified := modified + {path};
      }
      fields := fields[path := v];
    }

    /** First pre-save hook: hash a modified password and drop the confirmation. */
    method HashPasswordOnSave(hash: string -> string) returns (ok: bool)
      requires Valid()
      modifies this`fields
      ensures Valid()
      ensures ok == HashedOnSave(old(fields), modified, hash).Some?
      ensures ok ==> fields == HashedOnSave(old(fields), modified, hash).value
      ensures !ok ==> fields == old(fields)
    {
      HooksPreserveTyping(fields, isNew, modified, hash, 0);
      if "password" !in modified {
        return true;
      }
      if !("password" in fields && fields["password"].Str?) {
        return false;
      }
      fields := fields["password" := Str(hash(fields["password"].s))];
      fields := fields - {"passwordConfirm"};
      ok := true;
    }

    /** Second pre-save hook: back-date `passwordChangedAt` when an existing user's password changed. */
    method StampPasswordChangedAt(now: nat)
      requires Valid()
      modifies this`fields
      ensures Valid()
      ensures fields == StampedOnSave(old(fields), isNew, modified, now)
    {
      if "password" !in modified || isNew {
        return;
      }
      fields := fields["passwordChangedAt" := Date(now - ChangeMarginMs)];
    }

    /**
     * `user.save({validateBeforeSave})`: the validators, then the two
     * pre-save hooks in order, then the write to the store.
     */
    method Save(store: Collection, now: nat, hash: string -> string, validateBeforeSave: bool)
      returns (r: SaveResult)
      requires Valid()
      modifies this, store
      ensures Valid()
      ensures validateBeforeSave && !SchemaValid(old(fields)) ==>
                r == ValidationError && fields == old(fields) && store.docs == old(store.docs)
      ensures (!validateBeforeSave || SchemaValid(old(fields))) && HashedOnSave(old(fields), old(modified), hash).None? ==>
                r == HashRejected && fields == old(fields) && store.docs == old(store.docs)
      ensures (!validateBeforeSave || SchemaValid(old(fields))) && HashedOnSave(old(fields), old(modified), hash).Some? ==>
                && r == Saved
                && fields == StampedOnSave(HashedOnSave(old(fields), old(modified), hash).value, old(isNew), old(modified), now)
                && store.docs == old(store.docs)[id := fields]
                && !isNew && modified == {}
      ensures r != Saved ==> isNew == old(isNew) && modified == old(modified)
    {
      if validateBeforeSave && !SchemaValid(fields) {
        return ValidationError;
      }
      var ok := HashPasswordOnSave(hash);
      if !ok {
        return HashRejected;
      }
      StampPasswordChangedAt(now);
      store.docs := store.docs[id := fields];
      isNew := false;
      modified := {};
      r := Saved;
    }

    /**
     * `createPasswordResetToken()`: returns the hex rendering of 32 random
     * bytes, and stores only its sha256 digest plus an expiry ten minutes
     * after `now`.
     */
    method CreatePasswordResetToken(randomBytes: seq<byte>, sha256: string -> string, now: nat)
      returns (resetToken: string)
      requires Valid()
      requires |randomBytes| == ResetTokenBytes
      modifies this
      ensures Valid()
      ensures resetToken == HexEncode(randomBytes) && |resetToken| == 2 * ResetTokenBytes
      ensures HexDecode(resetToken) == Some(randomBytes)
      ensures fields == old(fields)["passwordResetToken" := Str(sha256(resetToken))]
                                   ["passwordResetExpires" := Date(now + ResetTokenLifetimeMs)]
      ensures isNew == old(isNew) && modified == old(modified) + {"passwordResetToken", "passwordResetExpires"}
    {
      resetToken := HexEncode(randomBytes);
      HexRoundTrip(randomBytes);
      fields := fields["passwordResetToken" := Str(sha256(resetToken))];
      fields := fields["passwordResetExpires" := Date(now + ResetTokenLifetimeMs)];
      modified := modified + {"passwordResetToken", "passwordResetExpires"};
    }
  }
}
