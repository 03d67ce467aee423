/** task_manger_clean_architecture/repositories/user_repository.go: the Mongo-backed UserRepository.
    The collection is `store`; the clock (`now`, in milliseconds), the ObjectIDs the code and the
    driver generate, and the driver's errors (`fault`) are parameters. */
module ArchUsers {
  import opened Wrappers
  import opened Bson
  import opened Domain
  import Mongo

  const UserNotFound := "user not found"
  const NoUsersFound := "no users found"

  // ---- the listing pipeline ------------------------------------------------------------------------

  /** `$group` of every document into one row, `$project` of its count and of a `$slice` of the
      documents. An empty collection gives no row (and never evaluates `$slice`). */
  function UsersPage(docs: seq<Doc>, startIndex: int, recordsPerPage: int): (r: Result<seq<Doc>>)
    ensures |docs| == 0 ==> r == Ok([])
    ensures |docs| > 0 ==> (r.Err? <==> Slice(docs, startIndex, recordsPerPage).Err?)
    ensures |docs| > 0 && r.Ok? ==>
              && |r.value| == 1
              && r.value[0].Keys == {"total_count", "user_items"}
              && r.value[0]["total_count"] == Int32(|docs|)
              && r.value[0]["user_items"] == Array(Documents(Slice(docs, startIndex, recordsPerPage).value))
  {
    if |docs| == 0 then Ok([])
    else match Slice(docs, startIndex, recordsPerPage)
      case Err(e) => Err(e)
      case Ok(window) => Ok([map["total_count" := Int32(|docs|), "user_items" := Array(Documents(window))]])
  }

  function Documents(ds: seq<Doc>): (r: seq<Value>)
    ensures |r| == |ds| && forall j :: 0 <= j < |ds| ==> r[j] == Document(ds[j])
  {
    seq(|ds|, j requires 0 <= j < |ds| => Document(ds[j]))
  }

  // ---- lookups -------------------------------------------------------------------------------------

  /** FindOne(filter {key: v}).Decode into a zero User, as GetUser and the testing repository's
      GetUserByEmail are written: the first matching user, or the zero User together with the error. */
  function FindUser(store: Mongo.Collection, key: string, v: Value, fault: Option<string>): (r: (User, Option<string>))
    reads store
    ensures r.1.Some? ==> r.0 == ZeroUser
    ensures fault.Some? ==> r.1 == fault
    ensures fault.None? ==> (r.1 == Some(Mongo.ErrNoDocuments) <==> Mongo.FirstMatch(store.docs, key, v).None?)
    ensures fault.None? && Mongo.FirstMatch(store.docs, key, v).Some? ==>
              match DecodeUser(store.docs[Mongo.FirstMatch(store.docs, key, v).value])
              case Ok(u) => r == (u, None)
              case Err(e) => r == (ZeroUser, Some(e))
  {
    match store.FindOne(key, v, fault)
    case Err(e) => (ZeroUser, Some(e))
    case Ok(d) => match DecodeUser(d)
      case Ok(u) => (u, None)
      case Err(e) => (ZeroUser, Some(e))
  }

  /** GetUser: the first user with the userid, or the zero User together with the error. */
  function GetUser(store: Mongo.Collection, userId: string, fault: Option<string>): (r: (User, Option<string>))
    reads store
    ensures r.1.Some? ==> r.0 == ZeroUser
    ensures fault.Some? ==> r.1 == fault
    ensures fault.None? ==> (r.1 == Some(Mongo.ErrNoDocuments) <==> Mongo.FirstMatch(store.docs, "userid", Str(userId)).None?)
    ensures r.1.None? ==> Mongo.FirstMatch(store.docs, "userid", Str(userId)).Some?
                          && DecodeUser(store.docs[Mongo.FirstMatch(store.docs, "userid", Str(userId)).value]) == Ok(r.0)
    ensures fault.None? && Mongo.FirstMatch(store.docs, "userid", Str(userId)).Some? ==>
              match DecodeUser(store.docs[Mongo.FirstMatch(store.docs, "userid", Str(userId)).value])
              case Ok(u) => r == (u, None)
              case Err(e) => r == (ZeroUser, Some(e))
  {
    FindUser(store, "userid", Str(userId), fault)
  }

  /** Login: the first user with the email; no such user is "user not found", any other error is
      passed on. */
  function Login(store: Mongo.Collection, email: string, fault: Option<string>): (r: Result<User>)
    reads store
    ensures fault.Some? ==> r == Err(fault.value)
    ensures fault.None? && Mongo.FirstMatch(store.docs, "email", Str(email)).None? ==> r == Err(UserNotFound)
    ensures fault.None? && Mongo.FirstMatch(store.docs, "email", Str(email)).Some? ==>
              (r.Ok? <==> DecodeUser(store.docs[Mongo.FirstMatch(store.docs, "email", Str(email)).value]).Ok?)
    ensures r.Ok? ==> Mongo.FirstMatch(store.docs, "email", Str(email)).Some?
                      && DecodeUser(store.docs[Mongo.FirstMatch(store.docs, "email", Str(email)).value]) == Ok(r.value)
  {
    match store.FindOne("email", Str(email), fault)
    case Err(e) => if e == Mongo.ErrNoDocuments && fault.None? then Err(UserNotFound) else Err(e)
    case Ok(d) => match DecodeUser(d)
      case Ok(u) => Ok(u)
      case Err(e) => Err(e)
  }

  /** GetUsers: the rows of the listing pipeline decoded as Users. A row holds only `total_count` and
      `user_items`, neither of which is a User field, so every listing is one zero User. */
  function GetUsers(store: Mongo.Collection, startIndex: int, recordsPerPage: int, fault: Option<string>,
                    cursorFault: Option<string>): (r: Result<seq<User>>)
    reads store
    ensures fault.Some? ==> r == Err(fault.value)
    ensures fault.None? && |store.docs| > 0 && Slice(store.docs, startIndex, recordsPerPage).Err? ==>
              r == Err(Slice(store.docs, startIndex, recordsPerPage).error)
    ensures fault.None? && cursorFault.None? && |store.docs| == 0 ==> r == Err(NoUsersFound)
    ensures r.Ok? ==> r.value == [ZeroUser]
    ensures fault.None? && cursorFault.None? && |store.docs| > 0 && Slice(store.docs, startIndex, recordsPerPage).Ok? ==>
              r == Ok([ZeroUser])
  {
    if fault.Some? then Err(fault.value)
    else match UsersPage(store.docs, startIndex, recordsPerPage)
      case Err(e) => Err(e)
      case Ok(rows) =>
        if cursorFault.Some? then Err(cursorFault.value)
        else if |rows| == 0 then Err(NoUsersFound)
        else
          // a row has no User field, so decoding it cannot fail
          Ok([DecodeUser(rows[0]).value])
  }

  // ---- changes -------------------------------------------------------------------------------------

  /** UpdateAllTokens: upserts by userid and sets only `updatedat`, to `now` cut to whole seconds by
      the RFC 3339 round trip; the two tokens are not written. */
  method UpdateAllTokens(store: Mongo.Collection, token: string, refreshToken: string, userId: string, now: int,
                         freshId: string, fault: Option<string>) returns (err: Option<string>)
    modifies store
    ensures fault.Some? ==> err == fault && store.docs == old(store.docs)
    ensures fault.None? ==> err.None?
    ensures fault.None? ==> store.docs == Mongo.Updated(old(store.docs), "userid", Str(userId),
                                                        map["updatedat" := DateTime(TruncateToSecond(now))], true, freshId)
  {
    var r := store.UpdateOne("userid", Str(userId), map["updatedat" := DateTime(TruncateToSecond(now))], true, freshId, fault);
    if r.Err? {
      return Some(r.error);
    }
    return None;
  }

  function PromoteFields(userType: string, now: int): (f: Doc)
    ensures f.Keys == {"usertype", "updatedat"}
  {
    map["usertype" := Str(userType), "updatedat" := DateTime(now)]
  }

  /** The first user with the userid already holds what Promote would set. */
  predicate AlreadyPromoted(docs: seq<Doc>, userId: string, userType: string, now: int)
    requires Mongo.FirstMatch(docs, "userid", Str(userId)).Some?
  {
    var d := docs[Mongo.FirstMatch(docs, "userid", Str(userId)).value];
    "usertype" in d && d["usertype"] == Str(userType) && "updatedat" in d && d["updatedat"] == DateTime(now)
  }

  /** Promote: `$set` of the user type and `updatedat`. No match is "user not found"; a match the
      update leaves as it was (same type, same timestamp) is "user type was already …". */
  method Promote(store: Mongo.Collection, userId: string, userType: string, now: int, fault: Option<string>)
    returns (err: Option<string>)
    modifies store
    ensures fault.Some? ==> err == Some("error updating user type: " + fault.value) && store.docs == old(store.docs)
    ensures fault.None? ==> store.docs == Mongo.Updated(old(store.docs), "userid", Str(userId), PromoteFields(userType, now), false, "")
    ensures fault.None? && Mongo.FirstMatch(old(store.docs), "userid", Str(userId)).None? ==> err == Some(UserNotFound)
    ensures fault.None? && Mongo.FirstMatch(old(store.docs), "userid", Str(userId)).Some? ==>
              err == (if AlreadyPromoted(old(store.docs), userId, userType, now)
                      then Some("user type was already " + userType) else None)
  {
    ghost var before := store.docs;
    var r := store.UpdateOne("userid", Str(userId), PromoteFields(userType, now), false, "", fault);
    Mongo.UpdateCounts(before, "userid", Str(userId), PromoteFields(userType, now), false, "");
    if r.Err? {
      return Some("error updating user type: " + r.error);
    }
    if Mongo.FirstMatch(before, "userid", Str(userId)).Some? {
      PromoteModifies(before, userId, userType, now);
    }
    if r.value.matched == 0 {
      return Some(UserNotFound);
    }
    if r.value.modified == 0 {
      return Some("user type was already " + userType);
    }
    return None;
  }

  /** The update counts a matched user as modified exactly when it is not already promoted. */
  lemma PromoteModifies(docs: seq<Doc>, userId: string, userType: string, now: int)
    requires Mongo.FirstMatch(docs, "userid", Str(userId)).Some?
    ensures Mongo.Counts(docs, "userid", Str(userId), PromoteFields(userType, now), false).modified == 0
            <==> AlreadyPromoted(docs, userId, userType, now)
  {
    var f := PromoteFields(userType, now);
    Mongo.UpdateCounts(docs, "userid", Str(userId), f, false, "");
    var d := docs[Mongo.FirstMatch(docs, "userid", Str(userId)).value];
    if !AlreadyPromoted(docs, userId, userType, now) {
      if !("usertype" in d && d["usertype"] == Str(userType)) {
        assert "usertype" in f;
      } else {
        assert "updatedat" in f;
      }
    }
  }

  /** The user Signup stores: both timestamps `now`, a fresh ID, and the UserId its hex form, whatever
      the caller supplied. */
  function SignedUp(u: User, now: int, newId: string): (r: User)
    ensures r.id == r.userId == newId && r.createdAt == r.updatedAt == now
    ensures r.(id := u.id, userId := u.userId, createdAt := u.createdAt, updatedAt := u.updatedAt) == u
  {
    u.(createdAt := now, updatedAt := now, id := newId, userId := newId)
  }

  /** Signup: inserts the stamped user and returns the driver's InsertedID, which is the "_id" the
      driver adds, not the user's ID (that one is stored under "id"). */
  method Signup(store: Mongo.Collection, u: User, now: int, newId: string, driverId: string, fault: Option<string>)
    returns (r: Result<Value>)
    modifies store
    ensures fault.Some? ==> r == Err("user item was not created: " + fault.value) && store.docs == old(store.docs)
    ensures fault.None? ==> store.docs == old(store.docs) + [Mongo.WithObjectId(EncodeUser(SignedUp(u, now, newId)), driverId)]
    ensures fault.None? ==> r == Ok(ObjectId(driverId))
  {
    var stamped := SignedUp(u, now, newId);
    var inserted := store.InsertOne(EncodeUser(stamped), driverId, fault);
    if inserted.Err? {
      return Err("user item was not created: " + inserted.error);
    }
    return Ok(inserted.value);
  }

  /** After a Signup into a collection with no user of that userid, GetUser by the new UserId gives
      the stamped user back: the caller's ID, UserId and timestamps are replaced. */
  lemma SignupThenGetUser(store: Mongo.Collection, before: seq<Doc>, u: User, now: int, newId: string, driverId: string)
    requires store.docs == before + [Mongo.WithObjectId(EncodeUser(SignedUp(u, now, newId)), driverId)]
    requires forall j :: 0 <= j < |before| ==> !Matches(before[j], "userid", Str(newId))
    ensures GetUser(store, newId, None) == (SignedUp(u, now, newId), None)
    ensures GetUser(store, newId, None).0.userId == newId && GetUser(store, newId, None).0.createdAt == now
  {
    var su := SignedUp(u, now, newId);
    var stored := Mongo.WithObjectId(EncodeUser(su), driverId);
    StoredSignup(su, stored, driverId);
    FoundLast(store, before, stored, newId, su);
  }

  lemma StoredSignup(su: User, stored: Doc, driverId: string)
    requires stored == Mongo.WithObjectId(EncodeUser(su), driverId)
    ensures Stores(stored, su) && DecodeUser(stored) == Ok(su)
  {
    EncodeStores(su);
    StoresKept(EncodeUser(su), stored, su);
    DecodeStored(stored, su);
  }

  /** A user stored last, and the only one with its userid, is the one GetUser finds. */
  lemma FoundLast(store: Mongo.Collection, before: seq<Doc>, stored: Doc, userId: string, u: User)
    requires store.docs == before + [stored] && Stores(stored, u) && u.userId == userId && DecodeUser(stored) == Ok(u)
    requires forall j :: 0 <= j < |before| ==> !Matches(before[j], "userid", Str(userId))
    ensures GetUser(store, userId, None) == (u, None)
  {
    assert store.docs[|before|] == stored && Matches(stored, "userid", Str(userId));
    assert Mongo.FirstMatch(store.docs, "userid", Str(userId)) == Some(|before|);
  }
}
