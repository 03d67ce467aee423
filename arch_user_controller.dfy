/** task_manger_clean_architecture/delivery/controllers/user_controller.go. The use case hands every
    call to the repository unchanged, so each handler is modelled on ArchUsers directly. bcrypt is
    `hash` and `matches(hash, password)`, the validator's pattern for e-mail addresses `isEmail` and
    its error text `explain`, the JWT signer `sign`; `now` is in milliseconds. */
module ArchUserController {
  import opened Wrappers
  import opened Http
  import opened GoStrings
  import opened Domain
  import Bson
  import Mongo
  import Auth
  import Tokens
  import ArchUsers

  /** What the handlers send as JSON values. */
  datatype UserJson = OneUser(user: User) | UserList(users: seq<User>) | InsertedId(id: Bson.Value)

  // ---- Signup --------------------------------------------------------------------------------------

  /** The user the handler hands to the use case: the password hashed, both timestamps `now` cut to
      whole seconds, a fresh ID and the UserId its hex form. */
  function Prepared(u: User, hash: string -> string, now: int, newId: string): (p: User)
    requires u.password.Some?
    ensures p.password == Some(hash(u.password.value)) && p.userId == p.id == newId
    ensures p.createdAt == p.updatedAt == Bson.TruncateToSecond(now)
    ensures p.email == u.email && p.phone == u.phone && p.userType == u.userType
  {
    u.(password := Some(hash(u.password.value)), createdAt := Bson.TruncateToSecond(now), updatedAt := Bson.TruncateToSecond(now),
       id := newId, userId := newId)
  }

  /** Signup: bind, validate, hash, stamp, store. No e-mail or phone uniqueness is checked. A missing
      password is not caught by validation (its tag is unreadable) and panics at the dereference. */
  method Signup(store: Mongo.Collection, body: Bound<User>, isEmail: string -> bool, explain: User -> string,
                hash: string -> string, now: int, newId: string, repoId: string, driverId: string, fault: Option<string>)
    returns (reply: Reply<UserJson>)
    modifies store
    ensures body.err.Some? ==> reply == Json(StatusBadRequest, Fields([("error", body.err.value)])) && store.docs == old(store.docs)
    ensures body.err.None? && !Valid(body.value, isEmail) ==>
              reply == Json(StatusBadRequest, Fields([("error", explain(body.value))])) && store.docs == old(store.docs)
    ensures body.err.None? && Valid(body.value, isEmail) && body.value.password.None? ==>
              reply == Crash(Tokens.NilDeref) && store.docs == old(store.docs)
    ensures body.err.None? && Valid(body.value, isEmail) && body.value.password.Some? ==>
              var stored := ArchUsers.SignedUp(Prepared(body.value, hash, now, newId), now, repoId);
              && (fault.Some? ==> reply == Json(StatusInternalServerError, Fields([("error", "user item was not created")]))
                                  && store.docs == old(store.docs))
              && (fault.None? ==> reply == Json(StatusOK, FieldsWith([], "insertionnumber", InsertedId(Bson.ObjectId(driverId))))
                                  && store.docs == old(store.docs) + [Mongo.WithObjectId(EncodeUser(stored), driverId)])
  {
    if body.err.Some? {
      return Json(StatusBadRequest, Fields([("error", body.err.value)]));
    }
    var user := body.value;
    if !Valid(user, isEmail) {
      return Json(StatusBadRequest, Fields([("error", explain(user))]));
    }
    if user.password.None? {
      return Crash(Tokens.NilDeref);
    }
    user := user.(password := Some(hash(user.password.value)));
    user := user.(createdAt := Bson.TruncateToSecond(now), updatedAt := Bson.TruncateToSecond(now));
    user := user.(id := newId);
    user := user.(userId := newId);
    var r := ArchUsers.Signup(store, user, now, repoId, driverId, fault);
    if r.Err? {
      return Json(StatusInternalServerError, Fields([("error", "user item was not created")]));
    }
    return Json(StatusOK, FieldsWith([], "insertionnumber", InsertedId(r.value)));
  }

  /** The handler's ID, UserId and truncated timestamps never reach the store: the repository stamps
      the user again. What is stored is the bound user with the hashed password and the repository's
      stamps. */
  lemma HandlerStampsOverwritten(u: User, hash: string -> string, now: int, newId: string, repoId: string)
    requires u.password.Some?
    ensures ArchUsers.SignedUp(Prepared(u, hash, now, newId), now, repoId) ==
            ArchUsers.SignedUp(u.(password := Some(hash(u.password.value))), now, repoId)
  {
  }

  // ---- Login ---------------------------------------------------------------------------------------

  /** How Login ends before the tokens are made, or the found user it goes on with. */
  datatype LoginStep = Answer(reply: Reply<UserJson>) | Proceed(user: User)

  /** VerifyPassword(*user.Password, *foundUser.Password): the stored hash against the password given. */
  function LoginStepOf(store: Mongo.Collection, body: Bound<User>, matches: (string, string) -> bool,
                       fault: Option<string>): (s: LoginStep)
    reads store
    ensures body.err.Some? ==> s == Answer(Json(StatusBadRequest, Fields([("error", body.err.value)])))
    ensures body.err.None? && body.value.email.None? ==> s == Answer(Crash(Tokens.NilDeref))
    ensures body.err.None? && body.value.email.Some? && ArchUsers.Login(store, body.value.email.value, fault).Err? ==>
              s == Answer(Json(StatusInternalServerError, Fields([("error", "email or password not found")])))
    ensures s.Proceed? ==>
              && body.err.None? && body.value.email.Some? && body.value.password.Some?
              && ArchUsers.Login(store, body.value.email.value, fault) == Ok(s.user)
              && s.user.password.Some? && matches(s.user.password.value, body.value.password.value)
              && s.user.email.Some?
    ensures body.err.None? && body.value.email.Some? && ArchUsers.Login(store, body.value.email.value, fault).Ok? ==>
              var found := ArchUsers.Login(store, body.value.email.value, fault).value;
              && (body.value.password.None? || found.password.None? ==> s == Answer(Crash(Tokens.NilDeref)))
              && (body.value.password.Some? && found.password.Some? ==>
                    && (!matches(found.password.value, body.value.password.value) ==>
                          s == Answer(Json(StatusInternalServerError, Fields([("error", "password or email not found")]))))
                    && (matches(found.password.value, body.value.password.value) && found.email.None? ==>
                          s == Answer(Json(StatusInternalServerError, Fields([("message", "user not found")]))))
                    && (matches(found.password.value, body.value.password.value) && found.email.Some? ==>
                          s == Proceed(found)))
  {
    if body.err.Some? then Answer(Json(StatusBadRequest, Fields([("error", body.err.value)])))
    else if body.value.email.None? then Answer(Crash(Tokens.NilDeref))
    else match ArchUsers.Login(store, body.value.email.value, fault)
      case Err(_) => Answer(Json(StatusInternalServerError, Fields([("error", "email or password not found")])))
      case Ok(found) =>
        if body.value.password.None? || found.password.None? then Answer(Crash(Tokens.NilDeref))
        else if !matches(found.password.value, body.value.password.value) then
          Answer(Json(StatusInternalServerError, Fields([("error", "password or email not found")])))
        else if found.email.None? then Answer(Json(StatusInternalServerError, Fields([("message", "user not found")])))
        else Proceed(found)
  }

  /** The tokens Login makes for the found user (the clock in Unix seconds). */
  function LoginTokens(u: User, now: int, sign: Tokens.SignedDetails -> Tokens.Signing): Tokens.Issued
    requires u.email.Some?
  {
    Tokens.GenerateAllTokens(u.email.value, u.firstName, u.lastName, u.userType, Some(u.userId), now / 1000, sign)
  }

  /** Login: once the checks pass, new tokens are made for the found user and UpdateAllTokens runs
      (its error is dropped); the answer is the user as found, before the update. Nothing is written
      unless the checks pass. */
  method Login(store: Mongo.Collection, body: Bound<User>, matches: (string, string) -> bool, now: int,
               sign: Tokens.SignedDetails -> Tokens.Signing, freshId: string, loginFault: Option<string>,
               updateFault: Option<string>) returns (reply: Reply<UserJson>)
    modifies store
    ensures old(LoginStepOf(store, body, matches, loginFault)).Answer? ==>
              reply == old(LoginStepOf(store, body, matches, loginFault)).reply && store.docs == old(store.docs)
    ensures old(LoginStepOf(store, body, matches, loginFault)).Proceed? ==>
              var found := old(LoginStepOf(store, body, matches, loginFault)).user;
              var issued := LoginTokens(found, now, sign);
              && (issued.Panicked? ==> reply == Crash(issued.reason) && store.docs == old(store.docs))
              && (issued.Issued? ==> reply == Json(StatusOK, Payload(OneUser(found))))
              && (issued.Issued? && updateFault.Some? ==> store.docs == old(store.docs))
              && (issued.Issued? && updateFault.None? ==>
                    store.docs == Mongo.Updated(old(store.docs), "userid", Bson.Str(found.userId),
                                                map["updatedat" := Bson.DateTime(Bson.TruncateToSecond(now))], true, freshId))
  {
    var step := LoginStepOf(store, body, matches, loginFault);
    if step.Answer? {
      return step.reply;
    }
    var found := step.user;
    var issued := LoginTokens(found, now, sign);
    if issued.Panicked? {
      return Crash(issued.reason);
    }
    var ignored := ArchUsers.UpdateAllTokens(store, issued.token, issued.refreshToken, found.userId, now, freshId, updateFault);
    return Json(StatusOK, Payload(OneUser(found)));
  }

  // ---- GetUsers ------------------------------------------------------------------------------------

  /** recordsPerPage: the "recordPerPage" parameter when it parses and is at least 1, else 10. */
  function RecordsPerPage(q: Query): (n: int)
    ensures 1 <= n <= MaxInt64
    ensures var c := Atoi(QueryGet(q, "recordPerPage")); n == if c.ok && c.value >= 1 then c.value else 10
  {
    var c := Atoi(QueryGet(q, "recordPerPage"));
    if !c.ok || c.value < 1 then 10 else c.value
  }

  /** page: the "page" parameter when it parses and is at least 1, else 1. */
  function Page(q: Query): (n: int)
    ensures 1 <= n <= MaxInt64
    ensures var c := Atoi(QueryGet(q, "page")); n == if c.ok && c.value >= 1 then c.value else 1
  {
    var c := Atoi(QueryGet(q, "page"));
    if !c.ok || c.value < 1 then 1 else c.value
  }

  /** `int64((page - 1) * recordsPerPage)` as written: a Go int product, which wraps around. */
  function StartIndexAsWritten(page: int, recordsPerPage: int): (s: int)
    ensures MinInt64 <= s <= MaxInt64
  {
    WrapInt64((page - 1) * recordsPerPage)
  }

  /** The offset of the page's first record, as intended: never negative and a whole number of pages. */
  function StartIndex(page: int, recordsPerPage: int): (s: int)
    requires page >= 1 && recordsPerPage >= 1
    ensures s >= 0 && s % recordsPerPage == 0 && s == (page - 1) * recordsPerPage
  {
    WholePages(page - 1, recordsPerPage);
    (page - 1) * recordsPerPage
  }

  /** k whole pages of n records: a non-negative multiple of n. */
  lemma WholePages(k: nat, n: int)
    requires n >= 1
    ensures k * n >= 0 && (k * n) % n == 0
  {
    var a := k * n;
    DivMod(a, n);
    var d := k - a / n;
    assert n * d == a - n * (a / n);
    if d >= 1 {
      AtLeastOnce(d, n);
    } else if d <= -1 {
      BelowZero(d, n);
    }
  }

  lemma DivMod(a: int, n: int)
    requires n >= 1
    ensures a == n * (a / n) + a % n && 0 <= a % n < n
  {
  }

  lemma AtLeastOnce(d: int, n: int)
    requires n >= 1 && d >= 1
    ensures n * d >= n
  {
  }

  lemma BelowZero(d: int, n: int)
    requires n >= 1 && d <= -1
    ensures n * d < 0
  {
  }

  /** page 2^60 with 16 records a page wraps to the offset -16, which `$slice` reads as "the last 16". */
  lemma StartIndexWraps()
    ensures StartIndexAsWritten(1_152_921_504_606_846_976, 16) == -16
    ensures StartIndex(1_152_921_504_606_846_976, 16) == 18_446_744_073_709_551_600
  {
    assert (1_152_921_504_606_846_976 - 1) * 16 == 18_446_744_073_709_551_600;
  }

  /** Whenever the product fits in 64 bits the written offset is the intended one. */
  lemma StartIndexAgrees(page: int, recordsPerPage: int)
    requires page >= 1 && recordsPerPage >= 1 && (page - 1) * recordsPerPage <= MaxInt64
    ensures StartIndexAsWritten(page, recordsPerPage) == StartIndex(page, recordsPerPage)
  {
  }

  /** The wrapped offset, handed to `$slice`, lists the end of the collection instead of a page past it. */
  lemma WrappedPageListsTail(docs: seq<Bson.Doc>)
    requires |docs| >= 16
    ensures Bson.Slice(docs, StartIndexAsWritten(1_152_921_504_606_846_976, 16), 16) == Ok(docs[|docs| - 16..])
  {
    StartIndexWraps();
    Bson.NegativeSliceTakesTail(docs, 16);
  }

  /** GetUsers: 400 for a caller that is not ADMIN before any parameter is read; otherwise the window
      at the offset as written (wrapped to 64 bits), 500 on any error. */
  function GetUsers(keys: Auth.Keys, q: Query, store: Mongo.Collection, fault: Option<string>,
                    cursorFault: Option<string>): (r: Reply<UserJson>)
    reads store
    ensures Auth.GetString(keys, "usertype") != "ADMIN" ==> r == Json(StatusBadRequest, Fields([("error", "unauthorized to access")]))
    ensures Auth.GetString(keys, "usertype") == "ADMIN" ==>
              match ArchUsers.GetUsers(store, StartIndexAsWritten(Page(q), RecordsPerPage(q)), RecordsPerPage(q), fault, cursorFault)
              case Err(_) => r == Json(StatusInternalServerError, Fields([("error", "error occurred while listing user items")]))
              case Ok(users) => r == Json(StatusOK, Payload(UserList(users)))
  {
    match Auth.CheckUserType(keys, "ADMIN")
    case Some(e) => Json(StatusBadRequest, Fields([("error", e)]))
    case None =>
      var recordsPerPage := RecordsPerPage(q);
      var page := Page(q);
      match ArchUsers.GetUsers(store, StartIndexAsWritten(page, recordsPerPage), recordsPerPage, fault, cursorFault)
      case Err(_) => Json(StatusInternalServerError, Fields([("error", "error occurred while listing user items")]))
      case Ok(users) => Json(StatusOK, Payload(UserList(users)))
  }

  /** An ADMIN listing of a non-empty collection, with the default page, answers one zero User. */
  lemma DefaultListingIsZeroUser(keys: Auth.Keys, store: Mongo.Collection)
    requires Auth.GetString(keys, "usertype") == "ADMIN" && |store.docs| > 0
    ensures GetUsers(keys, map[], store, None, None) == Json(StatusOK, Payload(UserList([ZeroUser])))
  {
    assert Atoi("") == Conversion(0, false);
    assert RecordsPerPage(map[]) == 10 && Page(map[]) == 1;
    assert StartIndexAsWritten(1, 10) == 0;
    Bson.SliceIsWindow(store.docs, 0, 10);
  }

  /** A page far past the end does not list nothing: page 2^60 with 16 records a page wraps to the
      last 16 users, and an ADMIN is answered 200 with the listing. */
  lemma HugePageAnswered(keys: Auth.Keys, store: Mongo.Collection, q: Query)
    requires Auth.GetString(keys, "usertype") == "ADMIN" && |store.docs| > 0
    requires q == map["page" := Itoa(1_152_921_504_606_846_976), "recordPerPage" := Itoa(16)]
    ensures GetUsers(keys, q, store, None, None) == Json(StatusOK, Payload(UserList([ZeroUser])))
  {
    AtoiItoa(1_152_921_504_606_846_976);
    AtoiItoa(16);
    assert Page(q) == 1_152_921_504_606_846_976 && RecordsPerPage(q) == 16;
    StartIndexWraps();
    assert Bson.Slice(store.docs, -16, 16).Ok?;
  }

  // ---- GetUser and Promote -------------------------------------------------------------------------

  /** GetUser: the uid check, then the repository's user or its error. */
  function GetUser(keys: Auth.Keys, userId: string, store: Mongo.Collection, fault: Option<string>): (r: Reply<UserJson>)
    reads store
    ensures Auth.MatchUserTypeToUid(keys, userId).Some? ==> r == Json(StatusBadRequest, Fields([("error", "unauthorized access")]))
    ensures Auth.MatchUserTypeToUid(keys, userId).None? ==>
              var found := ArchUsers.GetUser(store, userId, fault);
              r == if found.1.Some? then Json(StatusInternalServerError, Fields([("error", found.1.value)]))
                   else Json(StatusOK, Payload(OneUser(found.0)))
  {
    match Auth.MatchUserTypeToUid(keys, userId)
    case Some(e) => Json(StatusBadRequest, Fields([("error", e)]))
    case None =>
      var found := ArchUsers.GetUser(store, userId, fault);
      if found.1.Some? then Json(StatusInternalServerError, Fields([("error", found.1.value)]))
      else Json(StatusOK, Payload(OneUser(found.0)))
  }

  /** Promote: 403 unless the context's usertype is exactly "ADMIN"; any repository error, including
      "user not found" and "already", is 500. */
  method Promote(keys: Auth.Keys, userId: string, store: Mongo.Collection, now: int, fault: Option<string>)
    returns (reply: Reply<UserJson>)
    modifies store
    ensures !("usertype" in keys && keys["usertype"] == "ADMIN") ==>
              reply == Json(StatusForbidden, Fields([("error", "You are not authorized to perform this action")]))
              && store.docs == old(store.docs)
    ensures "usertype" in keys && keys["usertype"] == "ADMIN" ==>
              (reply == Json(StatusOK, Fields([("message", "User promoted to admin successfully")]))
               <==> fault.None? && Mongo.FirstMatch(old(store.docs), "userid", Bson.Str(userId)).Some?
                    && !ArchUsers.AlreadyPromoted(old(store.docs), userId, "ADMIN", now))
    ensures "usertype" in keys && keys["usertype"] == "ADMIN" &&
            reply != Json(StatusOK, Fields([("message", "User promoted to admin successfully")])) ==>
              reply == Json(StatusInternalServerError, Fields([("error", "Error updating user type")]))
    ensures "usertype" in keys && keys["usertype"] == "ADMIN" && fault.Some? ==> store.docs == old(store.docs)
    ensures "usertype" in keys && keys["usertype"] == "ADMIN" && fault.None? ==>
              store.docs == Mongo.Updated(old(store.docs), "userid", Bson.Str(userId), ArchUsers.PromoteFields("ADMIN", now), false, "")
  {
    if !("usertype" in keys && keys["usertype"] == "ADMIN") {
      return Json(StatusForbidden, Fields([("error", "You are not authorized to perform this action")]));
    }
    var err := ArchUsers.Promote(store, userId, "ADMIN", now, fault);
    if err.Some? {
      return Json(StatusInternalServerError, Fields([("error", "Error updating user type")]));
    }
    return Json(StatusOK, Fields([("message", "User promoted to admin successfully")]));
  }
}
