/** task_manger_clean_testing/repositories/user_repository.go. GetUser, Login and Signup are the same
    code as in the clean-architecture repository and are modelled once, in ArchUsers; the members here
    are the ones that differ. */
module TestingUsers {
  import opened Wrappers
  import opened Bson
  import opened Domain
  import Mongo
  import ArchUsers

  const UnexpectedResult := "unexpected result format"
  const UnexpectedItem := "unexpected user item format"

  /** GetUserByEmail: the first user with the email, or the zero User together with the error. */
  function GetUserByEmail(store: Mongo.Collection, email: string, fault: Option<string>): (r: (User, Option<string>))
    reads store
    ensures r.1.Some? ==> r.0 == ZeroUser
    ensures fault.Some? ==> r.1 == fault
    ensures fault.None? ==> (r.1 == Some(Mongo.ErrNoDocuments) <==> Mongo.FirstMatch(store.docs, "email", Str(email)).None?)
    ensures r.1.None? ==> Mongo.FirstMatch(store.docs, "email", Str(email)).Some?
                          && DecodeUser(store.docs[Mongo.FirstMatch(store.docs, "email", Str(email)).value]) == Ok(r.0)
    ensures fault.None? && Mongo.FirstMatch(store.docs, "email", Str(email)).Some? ==>
              match DecodeUser(store.docs[Mongo.FirstMatch(store.docs, "email", Str(email)).value])
              case Ok(u) => r == (u, None)
              case Err(e) => r == (ZeroUser, Some(e))
  {
    ArchUsers.FindUser(store, "email", Str(email), fault)
  }

  // ---- GetUsers ------------------------------------------------------------------------------------

  function StrField(m: Doc, k: string): Option<string> {
    if k in m && m[k].Str? then Some(m[k].s) else None
  }

  /** The hand-written mapping of one listed document to a User: a field is copied only when it is
      present with the Go type asserted for it (the ID from Mongo's own "_id", the times only from
      64-bit integers); any other field stays zero or nil. */
  function ManualDecode(m: Doc): (u: User)
    ensures u.id == (if "_id" in m && m["_id"].ObjectId? then m["_id"].hex else ZeroObjectId)
    ensures u.email == StrField(m, "email") && u.userType == StrField(m, "usertype")
    ensures u.createdAt == (if "createdat" in m && m["createdat"].Int64? then m["createdat"].i else ZeroTime)
    ensures u.userId == (if "userid" in m && m["userid"].Str? then m["userid"].s else "")
  {
    User(if "_id" in m && m["_id"].ObjectId? then m["_id"].hex else ZeroObjectId,
         StrField(m, "firstname"), StrField(m, "lastname"), StrField(m, "password"), StrField(m, "email"),
         StrField(m, "phone"), StrField(m, "token"), StrField(m, "usertype"), StrField(m, "refreshtoken"),
         if "createdat" in m && m["createdat"].Int64? then m["createdat"].i else ZeroTime,
         if "updatedat" in m && m["updatedat"].Int64? then m["updatedat"].i else ZeroTime,
         if "userid" in m && m["userid"].Str? then m["userid"].s else "")
  }

  /** A user stored by Signup comes back from the listing with Mongo's "_id" as its ID and with both
      timestamps zero: they are stored as BSON dates, which the mapping does not read. */
  lemma ListedUserLosesTimes(u: User, driverId: string)
    ensures ManualDecode(Mongo.WithObjectId(EncodeUser(u), driverId)) ==
            u.(id := driverId, createdAt := ZeroTime, updatedAt := ZeroTime)
  {
    var m := Mongo.WithObjectId(EncodeUser(u), driverId);
    NoMongoId(u);
    EncodeStores(u);
    StoresKept(EncodeUser(u), m, u);
    ManualDecodeStored(m, u, driverId);
  }

  lemma ManualDecodeStored(m: Doc, u: User, id: string)
    requires Stores(m, u) && "_id" in m && m["_id"] == ObjectId(id)
    ensures ManualDecode(m) == u.(id := id, createdAt := ZeroTime, updatedAt := ZeroTime)
  {
    assert StrField(m, "firstname") == u.firstName && StrField(m, "lastname") == u.lastName;
    assert StrField(m, "password") == u.password && StrField(m, "phone") == u.phone;
    assert StrField(m, "token") == u.token && StrField(m, "refreshtoken") == u.refreshToken;
    assert StrField(m, "email") == u.email && StrField(m, "usertype") == u.userType;
  }

  predicate HasItems(row: Doc) {
    "user_items" in row && row["user_items"].Array?
  }

  /** The checks and the mapping loop over the pipeline's rows. */
  method ListUsers(rows: seq<Doc>) returns (r: Result<seq<User>>)
    ensures |rows| == 0 ==> r == Err(ArchUsers.NoUsersFound)
    ensures |rows| > 0 && !HasItems(rows[0]) ==> r == Err(UnexpectedResult)
    ensures |rows| > 0 && HasItems(rows[0]) ==>
              var items := rows[0]["user_items"].items;
              && ((exists j :: 0 <= j < |items| && !items[j].Document?) ==> r == Err(UnexpectedItem))
              && ((forall j :: 0 <= j < |items| ==> items[j].Document?) ==>
                    r.Ok? && |r.value| == |items| &&
                    forall j :: 0 <= j < |items| ==> r.value[j] == ManualDecode(items[j].fields))
  {
    if |rows| == 0 {
      return Err(ArchUsers.NoUsersFound);
    }
    if !HasItems(rows[0]) {
      return Err(UnexpectedResult);
    }
    var items := rows[0]["user_items"].items;
    var users: seq<User> := [];
    for i := 0 to |items|
      invariant |users| == i
      invariant forall j :: 0 <= j < i ==> items[j].Document? && users[j] == ManualDecode(items[j].fields)
    {
      if !items[i].Document? {
        return Err(UnexpectedItem);
      }
      users := users + [ManualDecode(items[i].fields)];
    }
    return Ok(users);
  }

  /** GetUsers: the stored users at positions startIndex .. startIndex+recordsPerPage-1 in stored order,
      each through the hand-written mapping. An empty collection is "no users found"; a page past the
      end of a non-empty one is an empty list. */
  method GetUsers(store: Mongo.Collection, startIndex: int, recordsPerPage: int, fault: Option<string>,
                  cursorFault: Option<string>) returns (r: Result<seq<User>>)
    ensures fault.Some? ==> r == Err("aggregation error: " + fault.value)
    ensures fault.None? && |store.docs| > 0 && Slice(store.docs, startIndex, recordsPerPage).Err? ==>
              r == Err("aggregation error: " + Slice(store.docs, startIndex, recordsPerPage).error)
    ensures fault.None? && cursorFault.Some? && (|store.docs| == 0 || Slice(store.docs, startIndex, recordsPerPage).Ok?) ==>
              r == Err("cursor error: " + cursorFault.value)
    ensures fault.None? && cursorFault.None? && |store.docs| == 0 ==> r == Err(ArchUsers.NoUsersFound)
    ensures fault.None? && cursorFault.None? && |store.docs| > 0 && Slice(store.docs, startIndex, recordsPerPage).Ok? ==>
              var window := Slice(store.docs, startIndex, recordsPerPage).value;
              r.Ok? && |r.value| == |window| && forall j :: 0 <= j < |window| ==> r.value[j] == ManualDecode(window[j])
    ensures fault.None? && cursorFault.None? && 0 < |store.docs| <= startIndex <= Int32Max && 0 < recordsPerPage <= Int32Max ==>
              r == Ok([])
  {
    if fault.Some? {
      return Err("aggregation error: " + fault.value);
    }
    var page := ArchUsers.UsersPage(store.docs, startIndex, recordsPerPage);
    if page.Err? {
      return Err("aggregation error: " + page.error);
    }
    if cursorFault.Some? {
      return Err("cursor error: " + cursorFault.value);
    }
    if |store.docs| > 0 && 0 <= startIndex <= Int32Max && 0 < recordsPerPage <= Int32Max {
      SliceIsWindow(store.docs, startIndex, recordsPerPage);
    }
    r := ListUsers(page.value);
  }

  // ---- changes -------------------------------------------------------------------------------------

  /** Promote: the `$set` of the user type and `updatedat`, and the update's own counts; an unknown
      userid is not an error. */
  method Promote(store: Mongo.Collection, userId: string, userType: string, now: int, fault: Option<string>)
    returns (err: Option<string>, matched: int, modified: int)
    modifies store
    ensures fault.Some? ==> err == Some("error updating user type: " + fault.value) && matched == 0 && modified == 0
                            && store.docs == old(store.docs)
    ensures fault.None? ==> err.None?
    ensures fault.None? ==> store.docs == Mongo.Updated(old(store.docs), "userid", Str(userId),
                                                        ArchUsers.PromoteFields(userType, now), false, "")
    ensures fault.None? ==> matched == (if Mongo.FirstMatch(old(store.docs), "userid", Str(userId)).Some? then 1 else 0)
    ensures fault.None? ==> modified == (if Mongo.FirstMatch(old(store.docs), "userid", Str(userId)).Some? &&
                                            !ArchUsers.AlreadyPromoted(old(store.docs), userId, userType, now) then 1 else 0)
  {
    ghost var before := store.docs;
    var r := store.UpdateOne("userid", Str(userId), ArchUsers.PromoteFields(userType, now), false, "", fault);
    Mongo.UpdateCounts(before, "userid", Str(userId), ArchUsers.PromoteFields(userType, now), false, "");
    if r.Err? {
      return Some("error updating user type: " + r.error), 0, 0;
    }
    if Mongo.FirstMatch(before, "userid", Str(userId)).Some? {
      ArchUsers.PromoteModifies(before, userId, userType, now);
    }
    return None, r.value.matched, r.value.modified;
  }

  function TokenFields(token: string, refreshToken: string, now: int): (f: Doc)
    ensures f.Keys == {"updatedat", "token", "refreshtoken"}
  {
    map["updatedat" := DateTime(TruncateToSecond(now)), "token" := Str(token), "refreshtoken" := Str(refreshToken)]
  }

  /** UpdateAllTokens: upserts by userid, setting `updatedat` (cut to whole seconds), `token` and
      `refreshtoken` and nothing else. */
  method UpdateAllTokens(store: Mongo.Collection, token: string, refreshToken: string, userId: string, now: int,
                         freshId: string, fault: Option<string>) returns (err: Option<string>)
    modifies store
    ensures fault.Some? ==> err == fault && store.docs == old(store.docs)
    ensures fault.None? ==> err.None?
    ensures fault.None? ==> store.docs == Mongo.Updated(old(store.docs), "userid", Str(userId),
                                                        TokenFields(token, refreshToken, now), true, freshId)
  {
    var r := store.UpdateOne("userid", Str(userId), TokenFields(token, refreshToken, now), true, freshId, fault);
    if r.Err? {
      return Some(r.error);
    }
    return None;
  }

  /** For a userid no stored user has, the upsert adds a document holding only that userid, the three
      set fields and the "_id" the driver makes; for a known one, that user's tokens are the new ones
      and its other fields are kept. */
  lemma UpsertedTokens(docs: seq<Doc>, token: string, refreshToken: string, userId: string, now: int, freshId: string)
    ensures var after := Mongo.Updated(docs, "userid", Str(userId), TokenFields(token, refreshToken, now), true, freshId);
            match Mongo.FirstMatch(docs, "userid", Str(userId))
            case None =>
              && |after| == |docs| + 1 && after[..|docs|] == docs
              && after[|docs|].Keys == {"_id", "userid", "updatedat", "token", "refreshtoken"}
              && after[|docs|]["token"] == Str(token) && after[|docs|]["refreshtoken"] == Str(refreshToken)
            case Some(i) =>
              && |after| == |docs|
              && after[i]["token"] == Str(token) && after[i]["refreshtoken"] == Str(refreshToken)
              && (forall k :: k in docs[i] && k !in {"updatedat", "token", "refreshtoken"} ==> after[i][k] == docs[i][k])
              && (forall j :: 0 <= j < |docs| && j != i ==> after[j] == docs[j])
  {
  }
}
