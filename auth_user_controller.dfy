/** task_manager_with_auth_task_6/controllers/user_controller.go, with the store-writing
    UpdateAllTokens of task_manager_with_auth_task_6/helpers/token_helper.go. The handlers work on the
    global user collection `store`. bcrypt is `hash` and `matches(hash, password)`, the validator's
    pattern for e-mail addresses `isEmail` and its error text `explain`, the JWT signer `sign`; `now`
    is in milliseconds. A log.Panic, a nil dereference, an index out of range and a log.Fatal all end
    the handler as a Crash. */
module AuthUserController {
  import opened Wrappers
  import opened Http
  import opened GoStrings
  import opened Domain
  import opened Bson
  import Mongo
  import Auth
  import Tokens
  import ArchUsers
  import ArchUserController

  /** What the handlers send as JSON values. */
  datatype UserJson = OneUser(user: User) | Row(row: Doc) | InsertedId(id: Value)


  const PasswordMismatch := "password or email not found"
  const IndexOutOfRange := "index out of range [0] with length 0"

  /** VerifyPassword(userPassword, providedPassword): the comparison takes its SECOND argument as the
      hash, so callers pass the stored hash second. */
  function VerifyPassword(userPassword: string, providedPassword: string, matches: (string, string) -> bool)
    : (r: (bool, string))
    ensures r.0 <==> matches(providedPassword, userPassword)
    ensures r.0 <==> r.1 == ""
    ensures !r.0 ==> r.1 == PasswordMismatch
  {
    if matches(providedPassword, userPassword) then (true, "") else (false, PasswordMismatch)
  }

  /** helpers.UpdateAllTokens: upserts by userid setting only `updatedat` (cut to whole seconds); the
      tokens are not written. A store error panics. */
  method UpdateAllTokens(store: Mongo.Collection, token: string, refreshToken: string, userId: string, now: int,
                         freshId: string, fault: Option<string>) returns (crash: Option<string>)
    modifies store
    ensures fault.Some? ==> crash == fault && store.docs == old(store.docs)
    ensures fault.None? ==> crash.None?
    ensures fault.None? ==> store.docs == Mongo.Updated(old(store.docs), "userid", Str(userId),
                                                        map["updatedat" := DateTime(TruncateToSecond(now))], true, freshId)
  {
    var r := store.UpdateOne("userid", Str(userId), map["updatedat" := DateTime(TruncateToSecond(now))], true, freshId, fault);
    if r.Err? {
      return Some(r.error);
    }
    return None;
  }

  // ---- Register ------------------------------------------------------------------------------------

  /** The tokens Register makes for the new user (the clock in Unix seconds). */
  function RegisterTokens(u: User, now: int, newId: string, sign: Tokens.SignedDetails -> Tokens.Signing): Tokens.Issued
    requires u.email.Some?
  {
    Tokens.GenerateAllTokens(u.email.value, u.firstName, u.lastName, u.userType, Some(newId), now / 1000, sign)
  }

  /** The user Register inserts: hashed password, both timestamps `now` cut to whole seconds, a fresh
      ID with the UserId its hex form, and the two new tokens. */
  function Registered(u: User, hash: string -> string, now: int, newId: string, issued: Tokens.Issued): (r: User)
    requires u.password.Some? && issued.Issued?
    ensures r.password == Some(hash(u.password.value)) && r.id == r.userId == newId
    ensures r.token == Some(issued.token) && r.refreshToken == Some(issued.refreshToken)
    ensures r.email == u.email && r.phone == u.phone && r.userType == u.userType
    ensures r.createdAt == r.updatedAt == TruncateToSecond(now)
  {
    u.(password := Some(hash(u.password.value)), createdAt := TruncateToSecond(now), updatedAt := TruncateToSecond(now),
       id := newId, userId := newId, token := Some(issued.token), refreshToken := Some(issued.refreshToken))
  }

  predicate PhoneTaken(docs: seq<Doc>, phone: string) {
    exists j :: 0 <= j < |docs| && Matches(docs[j], "phone", Str(phone))
  }

  /** How Register ends before the insert, or the user it goes on to insert. */
  datatype RegisterStep = Refuse(reply: Reply<UserJson>) | Insert(user: User)

  /** Register up to the insert: bind, validate, hash, the two counts, stamps and tokens. The e-mail
      count is overwritten by the phone count before it is tested, so only a phone number already
      stored refuses the request; a known e-mail with a new phone goes on. */
  function RegisterStepOf(store: Mongo.Collection, body: Bound<User>, isEmail: string -> bool, explain: User -> string,
                          hash: string -> string, now: int, newId: string, sign: Tokens.SignedDetails -> Tokens.Signing,
                          emailFault: Option<string>, phoneFault: Option<string>): (s: RegisterStep)
    reads store
    ensures body.err.Some? ==> s == Refuse(Json(StatusBadRequest, Fields([("error", body.err.value)])))
    ensures body.err.None? && !Valid(body.value, isEmail) ==>
              s == Refuse(Json(StatusBadRequest, Fields([("error", explain(body.value))])))
    ensures body.err.None? && Valid(body.value, isEmail) ==>
              var u := body.value;
              && (u.password.None? ==> s == Refuse(Crash(Tokens.NilDeref)))
              && (u.password.Some? && emailFault.Some? ==> s == Refuse(Crash(emailFault.value)))
              && (u.password.Some? && emailFault.None? && phoneFault.Some? ==> s == Refuse(Crash(phoneFault.value)))
              && (u.password.Some? && emailFault.None? && phoneFault.None? && PhoneTaken(store.docs, u.phone.value) ==>
                    s == Refuse(Json(StatusBadRequest, Fields([("error", "email or phone number already exists")]))))
              && (u.password.Some? && emailFault.None? && phoneFault.None? && !PhoneTaken(store.docs, u.phone.value) ==>
                    var issued := RegisterTokens(u, now, newId, sign);
                    && (issued.Panicked? ==> s == Refuse(Crash(issued.reason)))
                    && (issued.Issued? ==> s == Insert(Registered(u, hash, now, newId, issued))))
  {
    if body.err.Some? then Refuse(Json(StatusBadRequest, Fields([("error", body.err.value)])))
    else if !Valid(body.value, isEmail) then Refuse(Json(StatusBadRequest, Fields([("error", explain(body.value))])))
    else if body.value.password.None? then Refuse(Crash(Tokens.NilDeref))
    else
      var user := body.value;
      match store.CountDocuments("email", Ptr(user.email), emailFault)
      case Err(e) => Refuse(Crash(e))
      case Ok(_) =>
        match store.CountDocuments("phone", Ptr(user.phone), phoneFault)
        case Err(e) => Refuse(Crash(e))
        case Ok(count) =>
          if count > 0 then Refuse(Json(StatusBadRequest, Fields([("error", "email or phone number already exists")])))
          else
            var issued := RegisterTokens(user, now, newId, sign);
            if issued.Panicked? then Refuse(Crash(issued.reason))
            else Insert(Registered(user, hash, now, newId, issued))
  }

  /** Register: the checks, then the insert of the stamped user with its tokens. */
  method Register(store: Mongo.Collection, body: Bound<User>, isEmail: string -> bool, explain: User -> string,
                  hash: string -> string, now: int, newId: string, driverId: string,
                  sign: Tokens.SignedDetails -> Tokens.Signing, emailFault: Option<string>, phoneFault: Option<string>,
                  insertFault: Option<string>) returns (reply: Reply<UserJson>)
    modifies store
    ensures var s := old(RegisterStepOf(store, body, isEmail, explain, hash, now, newId, sign, emailFault, phoneFault));
            && (s.Refuse? ==> reply == s.reply && store.docs == old(store.docs))
            && (s.Insert? && insertFault.Some? ==>
                  reply == Json(StatusInternalServerError, Fields([("error1", "user Item was not created ")]))
                  && store.docs == old(store.docs))
            && (s.Insert? && insertFault.None? ==>
                  reply == Json(StatusOK, FieldsWith([], "insertionnumber", InsertedId(ObjectId(driverId))))
                  && store.docs == old(store.docs) + [Mongo.WithObjectId(EncodeUser(s.user), driverId)])
  {
    var step := RegisterStepOf(store, body, isEmail, explain, hash, now, newId, sign, emailFault, phoneFault);
    if step.Refuse? {
      return step.reply;
    }
    NoMongoId(step.user);
    var inserted := store.InsertOne(EncodeUser(step.user), driverId, insertFault);
    if inserted.Err? {
      return Json(StatusInternalServerError, Fields([("error1", "user Item was not created ")]));
    }
    return Json(StatusOK, FieldsWith([], "insertionnumber", InsertedId(inserted.value)));
  }

  /** Register refuses a stored phone number but not a stored e-mail: a new user whose e-mail is
      already taken goes on to the insert when the phone is new. */
  lemma DuplicateEmailAccepted(store: Mongo.Collection, body: Bound<User>, isEmail: string -> bool, explain: User -> string,
                               hash: string -> string, now: int, newId: string, sign: Tokens.SignedDetails -> Tokens.Signing)
    requires body.err.None? && Valid(body.value, isEmail) && body.value.password.Some?
    requires body.value.firstName.Some? && body.value.lastName.Some?
    requires sign(Tokens.RefreshClaims(now / 1000)).Signed?
    requires !PhoneTaken(store.docs, body.value.phone.value)
    ensures RegisterStepOf(store, body, isEmail, explain, hash, now, newId, sign, None, None).Insert?
  {
  }

  // ---- Login ---------------------------------------------------------------------------------------

  datatype LoginStep = Answer(reply: Reply<UserJson>) | Proceed(user: User)

  /** The user the `{"email": user.Email}` filter finds: a nil e-mail is a null filter, which matches
      a stored user without one. */
  function FindByEmail(store: Mongo.Collection, email: Option<string>, fault: Option<string>): (r: Result<User>)
    reads store
    ensures fault.Some? ==> r == Err(fault.value)
    ensures fault.None? && Mongo.FirstMatch(store.docs, "email", Ptr(email)).None? ==> r == Err(Mongo.ErrNoDocuments)
    ensures r.Ok? ==> Mongo.FirstMatch(store.docs, "email", Ptr(email)).Some?
                      && DecodeUser(store.docs[Mongo.FirstMatch(store.docs, "email", Ptr(email)).value]) == Ok(r.value)
    ensures fault.None? && Mongo.FirstMatch(store.docs, "email", Ptr(email)).Some? ==>
              r == DecodeUser(store.docs[Mongo.FirstMatch(store.docs, "email", Ptr(email)).value])
  {
    match store.FindOne("email", Ptr(email), fault)
    case Err(e) => Err(e)
    case Ok(d) => DecodeUser(d)
  }

  /** Login up to the tokens: bind, lookup, password, the found user's e-mail. */
  function LoginStepOf(store: Mongo.Collection, body: Bound<User>, matches: (string, string) -> bool,
                       fault: Option<string>): (s: LoginStep)
    reads store
    ensures body.err.Some? ==> s == Answer(Json(StatusBadRequest, Fields([("error", body.err.value)])))
    ensures body.err.None? && FindByEmail(store, body.value.email, fault).Err? ==>
              s == Answer(Json(StatusInternalServerError, Fields([("error", "email or password not found")])))
    ensures body.err.None? && FindByEmail(store, body.value.email, fault).Ok? ==>
              var found := FindByEmail(store, body.value.email, fault).value;
              && (body.value.password.None? || found.password.None? ==> s == Answer(Crash(Tokens.NilDeref)))
              && (body.value.password.Some? && found.password.Some? ==>
                    && (!matches(found.password.value, body.value.password.value) ==>
                          s == Answer(Json(StatusInternalServerError, Fields([("error", PasswordMismatch)]))))
                    && (matches(found.password.value, body.value.password.value) && found.email.None? ==>
                          s == Answer(Json(StatusInternalServerError, Fields([("message", "user not found")]))))
                    && (matches(found.password.value, body.value.password.value) && found.email.Some? ==>
                          s == Proceed(found)))
  {
    if body.err.Some? then Answer(Json(StatusBadRequest, Fields([("error", body.err.value)])))
    else match FindByEmail(store, body.value.email, fault)
      case Err(_) => Answer(Json(StatusInternalServerError, Fields([("error", "email or password not found")])))
      case Ok(found) =>
        if body.value.password.None? || found.password.None? then Answer(Crash(Tokens.NilDeref))
        else
          var (ok, msg) := VerifyPassword(body.value.password.value, found.password.value, matches);
          if !ok then Answer(Json(StatusInternalServerError, Fields([("error", msg)])))
          else if found.email.None? then Answer(Json(StatusInternalServerError, Fields([("message", "user not found")])))
          else Proceed(found)
  }

  /** What the closing re-read by userid answers. The document is decoded into the user already found,
      so its absent keys keep that user's fields; a failed read answers a 500 body followed by the user
      as first found, a failed decoding one followed by the partly overwritten user (the status of the
      first write stays). */
  function Reread(store: Mongo.Collection, found: User, fault: Option<string>): (r: Reply<UserJson>)
    reads store
    ensures r.Reply?
    ensures fault.Some? ==> r == Reply(StatusInternalServerError, [Fields([("error", fault.value)]), Payload(OneUser(found))])
    ensures fault.None? && Mongo.FirstMatch(store.docs, "userid", Str(found.userId)).None? ==>
              r == Reply(StatusInternalServerError, [Fields([("error", Mongo.ErrNoDocuments)]), Payload(OneUser(found))])
    ensures fault.None? && Mongo.FirstMatch(store.docs, "userid", Str(found.userId)).Some? ==>
              var doc := store.docs[Mongo.FirstMatch(store.docs, "userid", Str(found.userId)).value];
              && (DecodeUser(doc).Ok? ==> r == Json(StatusOK, Payload(OneUser(Overlay(found, DecodeUser(doc).value, doc)))))
              && (DecodeUser(doc).Err? ==>
                    r == Reply(StatusInternalServerError, [Fields([("error", DecodeUser(doc).error)]),
                                                           Payload(OneUser(DecodeUserInto(found, doc).0))]))
  {
    match store.FindOne("userid", Str(found.userId), fault)
    case Err(e) => Reply(StatusInternalServerError, [Fields([("error", e)]), Payload(OneUser(found))])
    case Ok(d) =>
      var (u, err) := DecodeUserInto(found, d);
      if err.Some? then Reply(StatusInternalServerError, [Fields([("error", err.value)]), Payload(OneUser(u))])
      else Json(StatusOK, Payload(OneUser(u)))
  }

  /** The document UpdateAllTokens upserts for a userid no stored user has holds only "userid",
      "updatedat" and "_id"; reading it back into the found user keeps every other field of that user. */
  lemma RereadUpserted(store: Mongo.Collection, found: User, t: int, oid: string)
    requires Mongo.FirstMatch(store.docs, "userid", Str(found.userId)).Some?
    requires store.docs[Mongo.FirstMatch(store.docs, "userid", Str(found.userId)).value]
             == map["userid" := Str(found.userId), "updatedat" := DateTime(t), "_id" := ObjectId(oid)]
    ensures Reread(store, found, None) == Json(StatusOK, Payload(OneUser(found.(updatedAt := t))))
  {
    UpsertedDocumentKeepsFields(found, t, oid);
  }

  /** Login: after the checks, new tokens, UpdateAllTokens (which writes only `updatedat`), and the
      user read back by userid. */
  method Login(store: Mongo.Collection, body: Bound<User>, matches: (string, string) -> bool, now: int,
               sign: Tokens.SignedDetails -> Tokens.Signing, freshId: string, findFault: Option<string>,
               updateFault: Option<string>, rereadFault: Option<string>) returns (reply: Reply<UserJson>)
    modifies store
    ensures old(LoginStepOf(store, body, matches, findFault)).Answer? ==>
              reply == old(LoginStepOf(store, body, matches, findFault)).reply && store.docs == old(store.docs)
    ensures old(LoginStepOf(store, body, matches, findFault)).Proceed? ==>
              var found := old(LoginStepOf(store, body, matches, findFault)).user;
              var issued := Tokens.GenerateAllTokens(found.email.value, found.firstName, found.lastName, found.userType,
                                                     Some(found.userId), now / 1000, sign);
              && (issued.Panicked? ==> reply == Crash(issued.reason) && store.docs == old(store.docs))
              && (issued.Issued? && updateFault.Some? ==> reply == Crash(updateFault.value) && store.docs == old(store.docs))
              && (issued.Issued? && updateFault.None? ==>
                    && store.docs == Mongo.Updated(old(store.docs), "userid", Str(found.userId),
                                                   map["updatedat" := DateTime(TruncateToSecond(now))], true, freshId)
                    && reply == Reread(store, found, rereadFault))
  {
    var step := LoginStepOf(store, body, matches, findFault);
    if step.Answer? {
      return step.reply;
    }
    var found := step.user;
    var issued := Tokens.GenerateAllTokens(found.email.value, found.firstName, found.lastName, found.userType,
                                           Some(found.userId), now / 1000, sign);
    if issued.Panicked? {
      return Crash(issued.reason);
    }
    var crash := UpdateAllTokens(store, issued.token, issued.refreshToken, found.userId, now, freshId, updateFault);
    if crash.Some? {
      return Crash(crash.value);
    }
    reply := Reread(store, found, rereadFault);
  }

  /** A login body without an e-mail is looked up with a null filter: if the first stored user that
      lacks an e-mail has the password, the answer is 500 "user not found". */
  lemma NilEmailLogin(store: Mongo.Collection, body: Bound<User>, matches: (string, string) -> bool)
    requires body.err.None? && body.value.email.None? && body.value.password.Some?
    requires FindByEmail(store, None, None).Ok?
    requires var found := FindByEmail(store, None, None).value;
             found.password.Some? && matches(found.password.value, body.value.password.value)
    ensures LoginStepOf(store, body, matches, None) ==
            Answer(Json(StatusInternalServerError, Fields([("message", "user not found")])))
  {
    var i := Mongo.FirstMatch(store.docs, "email", Null).value;
    assert Matches(store.docs[i], "email", Null);
  }

  // ---- GetUsers ------------------------------------------------------------------------------------

  /** The offset used: the raw "startIndex" parameter (0 when missing or not a number); the page
      computation before it is overwritten. */
  function StartIndex(q: Query): (s: int)
    ensures MinInt64 <= s <= MaxInt64
    ensures "startIndex" !in q ==> s == 0
  {
    Atoi(QueryGet(q, "startIndex")).value
  }

  /** Any int64 written in decimal as "startIndex" is the offset used, negative ones included. */
  lemma StartIndexRead(q: Query, n: int)
    requires MinInt64 <= n <= MaxInt64
    requires "startIndex" in q && q["startIndex"] == Itoa(n)
    ensures StartIndex(q) == n
  {
    AtoiItoa(n);
  }

  /** GetUsers. After a failed aggregation the 500 is written and the handler goes on to read the nil
      cursor; a failed read is log.Fatal; an empty collection has no row [0]. Otherwise the one row:
      the total count and the requested window of users. */
  function GetUsers(keys: Auth.Keys, q: Query, store: Mongo.Collection, aggregateFault: Option<string>,
                    allFault: Option<string>): (r: Reply<UserJson>)
    reads store
    ensures Auth.GetString(keys, "usertype") != "ADMIN" ==> r == Json(StatusBadRequest, Fields([("error", "unauthorized to access")]))
    ensures Auth.GetString(keys, "usertype") == "ADMIN" ==>
              var page := ArchUsers.UsersPage(store.docs, StartIndex(q), ArchUserController.RecordsPerPage(q));
              && (aggregateFault.Some? || page.Err? ==> r == Crash(Tokens.NilDeref))
              && (aggregateFault.None? && page.Ok? && allFault.Some? ==> r == Crash(allFault.value))
              && (aggregateFault.None? && allFault.None? && |store.docs| == 0 ==> r == Crash(IndexOutOfRange))
              && (aggregateFault.None? && allFault.None? && |store.docs| > 0 && page.Ok? ==>
                    r == Json(StatusOK, Payload(Row(page.value[0]))))
  {
    match Auth.CheckUserType(keys, "ADMIN")
    case Some(e) => Json(StatusBadRequest, Fields([("error", e)]))
    case None =>
      var recordsPerPage := ArchUserController.RecordsPerPage(q);
      var startIndex := StartIndex(q);
      var page := ArchUsers.UsersPage(store.docs, startIndex, recordsPerPage);
      if aggregateFault.Some? || page.Err? then Crash(Tokens.NilDeref)
      else if allFault.Some? then Crash(allFault.value)
      else if |page.value| == 0 then Crash(IndexOutOfRange)
      else Json(StatusOK, Payload(Row(page.value[0])))
  }

  /** The "page" parameter changes nothing: its offset is overwritten by "startIndex". */
  lemma PageIgnored(keys: Auth.Keys, q: Query, page: string, store: Mongo.Collection, f1: Option<string>, f2: Option<string>)
    ensures GetUsers(keys, q["page" := page], store, f1, f2) == GetUsers(keys, q, store, f1, f2)
  {
    assert QueryGet(q["page" := page], "startIndex") == QueryGet(q, "startIndex");
    assert QueryGet(q["page" := page], "recordPerPage") == QueryGet(q, "recordPerPage");
  }

  /** With no query parameters an ADMIN gets the first ten users and the total count. */
  lemma DefaultListing(keys: Auth.Keys, store: Mongo.Collection)
    requires Auth.GetString(keys, "usertype") == "ADMIN" && |store.docs| > 0
    ensures var n := if |store.docs| < 10 then |store.docs| else 10;
            GetUsers(keys, map[], store, None, None) ==
            Json(StatusOK, Payload(Row(map["total_count" := Int32(|store.docs|),
                                           "user_items" := Array(ArchUsers.Documents(store.docs[..n]))])))
  {
    assert Atoi("") == Conversion(0, false);
    SliceIsWindow(store.docs, 0, 10);
    var n := if |store.docs| < 10 then |store.docs| else 10;
    assert store.docs[0..0 + n] == store.docs[..n];
  }

  // ---- GetUser and Promote -------------------------------------------------------------------------

  /** GetUser: the uid check, then the user with the userid or the error. */
  function GetUser(keys: Auth.Keys, userId: string, store: Mongo.Collection, fault: Option<string>): (r: Reply<UserJson>)
    reads store
    ensures Auth.MatchUserTypeToUid(keys, userId).Some? ==> r == Json(StatusBadRequest, Fields([("error", "unauthorized access")]))
    ensures Auth.MatchUserTypeToUid(keys, userId).None? && fault.None? &&
            Mongo.FirstMatch(store.docs, "userid", Str(userId)).None? ==>
              r == Json(StatusInternalServerError, Fields([("error", Mongo.ErrNoDocuments)]))
    ensures Auth.MatchUserTypeToUid(keys, userId).None? && fault.Some? ==>
              r == Json(StatusInternalServerError, Fields([("error", fault.value)]))
    ensures Auth.MatchUserTypeToUid(keys, userId).None? && r.Reply? && r.status == StatusOK ==>
              var i := Mongo.FirstMatch(store.docs, "userid", Str(userId));
              i.Some? && DecodeUser(store.docs[i.value]).Ok? && r == Json(StatusOK, Payload(OneUser(DecodeUser(store.docs[i.value]).value)))
    ensures Auth.MatchUserTypeToUid(keys, userId).None? && fault.None? &&
            Mongo.FirstMatch(store.docs, "userid", Str(userId)).Some? ==>
              match DecodeUser(store.docs[Mongo.FirstMatch(store.docs, "userid", Str(userId)).value])
              case Ok(u) => r == Json(StatusOK, Payload(OneUser(u)))
              case Err(e) => r == Json(StatusInternalServerError, Fields([("error", e)]))
  {
    match Auth.MatchUserTypeToUid(keys, userId)
    case Some(e) => Json(StatusBadRequest, Fields([("error", e)]))
    case None =>
      match store.FindOne("userid", Str(userId), fault)
      case Err(e) => Json(StatusInternalServerError, Fields([("error", e)]))
      case Ok(d) => match DecodeUser(d)
        case Err(e) => Json(StatusInternalServerError, Fields([("error", e)]))
        case Ok(u) => Json(StatusOK, Payload(OneUser(u)))
  }

  /** Promote: 403 unless usertype is "ADMIN"; then the update's error (500), its matched count (404
      when 0) and its modified count (200 "already" when 0, else 200 "promoted"). */
  method Promote(keys: Auth.Keys, userId: string, store: Mongo.Collection, now: int, fault: Option<string>)
    returns (reply: Reply<UserJson>)
    modifies store
    ensures !("usertype" in keys && keys["usertype"] == "ADMIN") ==>
              reply == Json(StatusForbidden, Fields([("error", "You are not authorized to perform this action")]))
              && store.docs == old(store.docs)
    ensures "usertype" in keys && keys["usertype"] == "ADMIN" ==>
              && (fault.Some? ==> reply == Json(StatusInternalServerError, Fields([("error", "Error updating user type")]))
                                  && store.docs == old(store.docs))
              && (fault.None? ==> store.docs == Mongo.Updated(old(store.docs), "userid", Str(userId),
                                                              ArchUsers.PromoteFields("ADMIN", now), false, ""))
              && (fault.None? && Mongo.FirstMatch(old(store.docs), "userid", Str(userId)).None? ==>
                    reply == Json(StatusNotFound, Fields([("error", "User not found")])))
              && (fault.None? && Mongo.FirstMatch(old(store.docs), "userid", Str(userId)).Some? ==>
                    reply == Json(StatusOK, Fields([("message",
                               if ArchUsers.AlreadyPromoted(old(store.docs), userId, "ADMIN", now)
                               then "User type was already ADMIN" else "User promoted to admin successfully")])))
  {
    if !("usertype" in keys && keys["usertype"] == "ADMIN") {
      return Json(StatusForbidden, Fields([("error", "You are not authorized to perform this action")]));
    }
    ghost var before := store.docs;
    var res := store.UpdateOne("userid", Str(userId), ArchUsers.PromoteFields("ADMIN", now), false, "", fault);
    Mongo.UpdateCounts(before, "userid", Str(userId), ArchUsers.PromoteFields("ADMIN", now), false, "");
    if res.Err? {
      return Json(StatusInternalServerError, Fields([("error", "Error updating user type")]));
    }
    if Mongo.FirstMatch(before, "userid", Str(userId)).Some? {
      ArchUsers.PromoteModifies(before, userId, "ADMIN", now);
    }
    if res.value.matched == 0 {
      return Json(StatusNotFound, Fields([("error", "User not found")]));
    }
    if res.value.modified == 0 {
      return Json(StatusOK, Fields([("message", "User type was already ADMIN")]));
    }
    return Json(StatusOK, Fields([("message", "User promoted to admin successfully")]));
  }
}
