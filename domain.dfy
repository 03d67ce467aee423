/** task_manger_clean_architecture/domain/domain.go: the User and Task records, what their struct tags
    mean to Go's reflection, the validation that results, and their BSON form. */
module Domain {
  import opened Wrappers
  import opened Bson

  /** A user. Pointer fields are options; an ObjectID is its 24-digit hex form; times are
      milliseconds since the epoch. */
  datatype User = User(
    id: string,
    firstName: Option<string>,
    lastName: Option<string>,
    password: Option<string>,
    email: Option<string>,
    phone: Option<string>,
    token: Option<string>,
    userType: Option<string>,
    refreshToken: Option<string>,
    createdAt: int,
    updatedAt: int,
    userId: string)

  datatype Task = Task(id: string, title: string, description: string, dueDate: int, status: string)

  const ZeroObjectId := "000000000000000000000000"

  /** The zero User: a Go `domain.User{}`. */
  const ZeroUser := User(ZeroObjectId, None, None, None, None, None, None, None, None, ZeroTime, ZeroTime, "")

  // ---- struct tags -------------------------------------------------------------------------------

  /** The raw tags of domain.go, character for character (the first four written as their opening
      `key: ` and the rest). */
  const IdTag := "bson: " + "\"_id\""
  const FirstNameTag := "json: " + "\"firstname\" validate: \"required,min=2,max=100\""
  const LastNameTag := "json: " + "\"lastname\" validate:\"required min=2,max=100\""
  const PasswordTag := "json: " + "\"password\" validate:\"required min=6\""
  const EmailTag := "json:\"email\" validate:\"email,required\""
  const PhoneTag := "json:\"phone\" validate:\"required\""
  const UserTypeTag := "json:\"usertype\" validate:\"required,oneof=ADMIN USER\""
  const TaskIdTag := "json:\"id\" bson:\"id\""

  /** Length of the key that starts a tag: runes above space other than ':', '"' and DEL. */
  function KeyLen(tag: string): (n: nat)
    ensures n <= |tag|
    ensures forall i :: 0 <= i < n ==> tag[i] > ' ' && tag[i] != ':' && tag[i] != '"' && tag[i] != '\U{7F}'
  {
    if |tag| == 0 || tag[0] <= ' ' || tag[0] == ':' || tag[0] == '"' || tag[0] == '\U{7F}' then 0
    else 1 + KeyLen(tag[1..])
  }

  /** Index of the closing quote of a quoted value that starts at index 0 (|s| when there is none);
      a backslash escapes the rune after it. */
  function CloseQuote(s: string, i: nat): (j: nat)
    requires i <= |s|
    ensures i <= j <= |s| + 1
    ensures j < |s| ==> s[j] == '"'
    ensures (forall k :: i <= k < |s| ==> s[k] != '"' && s[k] != '\\') ==> j == |s|
    ensures (forall k :: i <= k < j && k < |s| ==> s[k] != '\\') ==> forall k :: i <= k < j && k < |s| ==> s[k] != '"'
    decreases |s| - i
  {
    if i >= |s| then i
    else if s[i] == '"' then i
    else if s[i] == '\\' then (if i + 2 <= |s| then CloseQuote(s, i + 2) else |s| + 1)
    else CloseQuote(s, i + 1)
  }

  function DropSpaces(tag: string): (r: string)
    ensures |r| <= |tag| && (|r| > 0 ==> r[0] != ' ')
    ensures r == tag[|tag| - |r|..]
  {
    if |tag| > 0 && tag[0] == ' ' then DropSpaces(tag[1..]) else tag
  }

  /** reflect.StructTag.Lookup: walks `key:"value"` pairs separated by spaces and stops for good at
      the first pair that is not of that form. Values without escapes are unquoted as they are. */
  function Lookup(tag: string, key: string): (r: Option<string>)
    ensures r.Some? ==> '\\' !in r.value && '"' !in r.value
    decreases |tag|
  {
    var t := DropSpaces(tag);
    if t == "" then None
    else
      var n := KeyLen(t);
      if n == 0 || n + 1 >= |t| || t[n] != ':' || t[n + 1] != '"' then None
      else
        var rest := t[n + 1..];
        var close := CloseQuote(rest, 1);
        if close >= |rest| then None
        else if t[..n] == key then (if '\\' in rest[1..close] then None else Some(rest[1..close]))
        else Lookup(rest[close + 1..], key)
  }

  /** A well-formed single pair `key:"value"` whose value has no quote and no backslash yields that
      value for its key and nothing for any other key. */
  lemma LookupOnePair(key: string, value: string, other: string)
    requires 0 < |key| && forall i :: 0 <= i < |key| ==> key[i] > ' ' && key[i] != ':' && key[i] != '"' && key[i] != '\U{7F}'
    requires forall i :: 0 <= i < |value| ==> value[i] != '"' && value[i] != '\\'
    requires other != key
    ensures Lookup(key + ":\"" + value + "\"", key) == Some(value)
    ensures Lookup(key + ":\"" + value + "\"", other) == None
  {
    OnePairScan(key, value);
  }

  /** How Lookup scans such a pair: no leading space, the key up to the colon, the value up to the
      closing quote, and nothing after it. */
  lemma OnePairScan(key: string, value: string)
    requires 0 < |key| && forall i :: 0 <= i < |key| ==> key[i] > ' ' && key[i] != ':' && key[i] != '"' && key[i] != '\U{7F}'
    requires forall i :: 0 <= i < |value| ==> value[i] != '"' && value[i] != '\\'
    ensures var tag := key + ":\"" + value + "\"";
            && DropSpaces(tag) == tag && KeyLen(tag) == |key| && |key| + 1 < |tag|
            && tag[|key|] == ':' && tag[|key| + 1] == '"' && tag[..|key|] == key
            && CloseQuote(tag[|key| + 1..], 1) == |value| + 1 < |tag[|key| + 1..]|
            && tag[|key| + 1..][1..|value| + 1] == value && tag[|key| + 1..][|value| + 2..] == ""
  {
    var tag := key + ":\"" + value + "\"";
    var n := |key|;
    assert tag[n] == ':' && tag[n + 1] == '"';
    assert forall i :: 0 <= i < n ==> tag[i] == key[i];
    KeyLenStops(tag, n);
    var rest := tag[n + 1..];
    assert rest == "\"" + value + "\"";
    CloseQuoteSkips(rest, 1, |value| + 1);
    assert tag[..n] == key;
    assert rest[1..|value| + 1] == value;
  }

  /** The scan runs over runes that are neither quotes nor backslashes up to the quote at `j`. */
  lemma {:induction false} CloseQuoteSkips(s: string, i: nat, j: nat)
    requires i <= j < |s| && s[j] == '"'
    requires forall k :: i <= k < j ==> s[k] != '"' && s[k] != '\\'
    ensures CloseQuote(s, i) == j
    decreases j - i
  {
    if i < j {
      CloseQuoteSkips(s, i + 1, j);
    }
  }

  /** A tag whose first key is followed by `: ` (a space before the quote) yields nothing for any key:
      the walk stops at its first pair. */
  lemma SpaceAfterColonHidesAll(tag: string, n: nat, key: string)
    requires 0 < n && n + 1 < |tag| && tag[0] != ' '
    requires forall i :: 0 <= i < n ==> tag[i] > ' ' && tag[i] != ':' && tag[i] != '"' && tag[i] != '\U{7F}'
    requires tag[n] == ':' && tag[n + 1] == ' '
    ensures Lookup(tag, key) == None
  {
    KeyLenStops(tag, n);
  }

  lemma {:induction false} KeyLenStops(tag: string, n: nat)
    requires n < |tag| && tag[n] == ':'
    requires forall i :: 0 <= i < n ==> tag[i] > ' ' && tag[i] != ':' && tag[i] != '"' && tag[i] != '\U{7F}'
    ensures KeyLen(tag) == n
  {
    if n > 0 {
      KeyLenStops(tag[1..], n - 1);
    }
  }

  /** The FirstName, LastName and Password tags put a space after `json:`, so neither their validate
      rules nor their json names are ever seen. */
  lemma NameAndPasswordRulesHidden(key: string)
    ensures Lookup(FirstNameTag, key) == None
    ensures Lookup(LastNameTag, key) == None
    ensures Lookup(PasswordTag, key) == None
  {
    SpaceAfterColonHidesAll(FirstNameTag, 4, key);
    SpaceAfterColonHidesAll(LastNameTag, 4, key);
    SpaceAfterColonHidesAll(PasswordTag, 4, key);
  }

  /** The ID's `bson: "_id"` is lost the same way, so the driver stores the ID under "id". */
  lemma IdKeyHidden()
    ensures Lookup(IdTag, "bson") == None
  {
    SpaceAfterColonHidesAll(IdTag, 4, "bson");
  }

  // ---- validation --------------------------------------------------------------------------------

  /** validate.Struct(user) with the rules that survive: Email present and email-shaped (`isEmail`
      stands for the validator's pattern), Phone present, UserType present and ADMIN or USER. A
      present pointer passes `required` even when it points to "". */
  predicate Valid(u: User, isEmail: string -> bool) {
    && u.email.Some? && isEmail(u.email.value)
    && u.phone.Some?
    && u.userType.Some? && u.userType.value in {"ADMIN", "USER"}
  }

  /** Nothing about names or the password is checked: a user with no names and no password is valid. */
  lemma NamesAndPasswordUnchecked(u: User, isEmail: string -> bool)
    requires Valid(u, isEmail)
    ensures Valid(u.(firstName := None, lastName := None, password := None), isEmail)
  {
  }

  // ---- BSON form ---------------------------------------------------------------------------------

  function Ptr(o: Option<string>): (v: Value)
    ensures v == Null <==> o.None?
  {
    if o.Some? then Str(o.value) else Null
  }

  /** The document the driver makes of a User: field names lower-cased, the ID under "id". */
  function EncodeUser(u: User): (d: Doc)
    ensures d.Keys == {"id", "firstname", "lastname", "password", "email", "phone", "token", "usertype",
                       "refreshtoken", "createdat", "updatedat", "userid"}
  {
    map["id" := ObjectId(u.id), "firstname" := Ptr(u.firstName), "lastname" := Ptr(u.lastName),
        "password" := Ptr(u.password), "email" := Ptr(u.email), "phone" := Ptr(u.phone),
        "token" := Ptr(u.token), "usertype" := Ptr(u.userType), "refreshtoken" := Ptr(u.refreshToken),
        "createdat" := DateTime(u.createdAt), "updatedat" := DateTime(u.updatedAt), "userid" := Str(u.userId)]
  }

  /** `d` holds every field of `u` under the key EncodeUser uses. */
  predicate Stores(d: Doc, u: User) {
    && "id" in d && d["id"] == ObjectId(u.id)
    && "firstname" in d && d["firstname"] == Ptr(u.firstName)
    && "lastname" in d && d["lastname"] == Ptr(u.lastName)
    && "password" in d && d["password"] == Ptr(u.password)
    && "email" in d && d["email"] == Ptr(u.email)
    && "phone" in d && d["phone"] == Ptr(u.phone)
    && "token" in d && d["token"] == Ptr(u.token)
    && "usertype" in d && d["usertype"] == Ptr(u.userType)
    && "refreshtoken" in d && d["refreshtoken"] == Ptr(u.refreshToken)
    && "createdat" in d && d["createdat"] == DateTime(u.createdAt)
    && "updatedat" in d && d["updatedat"] == DateTime(u.updatedAt)
    && "userid" in d && d["userid"] == Str(u.userId)
  }

  lemma EncodeStores(u: User)
    ensures Stores(EncodeUser(u), u)
  {
  }

  /** A document that keeps every field of one that stores `u` stores `u` too. */
  lemma StoresKept(d: Doc, d2: Doc, u: User)
    requires Stores(d, u)
    requires forall k :: k in d ==> k in d2 && d2[k] == d[k]
    ensures Stores(d2, u)
  {
  }

  /** Decoding one optional string field: absent or null is nil. */
  function DecodePtr(d: Doc, k: string): (r: Result<Option<string>>)
    ensures r.Err? <==> k in d && d[k] != Null && !d[k].Str?
  {
    if k !in d || d[k] == Null then Ok(None)
    else if d[k].Str? then Ok(Some(d[k].s))
    else Err("error decoding key " + k)
  }

  function DecodeStr(d: Doc, k: string): (r: Result<string>)
    ensures r.Err? <==> k in d && d[k] != Null && !d[k].Str?
  {
    if k !in d || d[k] == Null then Ok("")
    else if d[k].Str? then Ok(d[k].s)
    else Err("error decoding key " + k)
  }

  function DecodeTime(d: Doc, k: string): (r: Result<int>)
    ensures r.Err? <==> k in d && d[k] != Null && !d[k].DateTime? && !d[k].Int64?
  {
    if k !in d || d[k] == Null then Ok(ZeroTime)
    else if d[k].DateTime? then Ok(d[k].ms)
    else if d[k].Int64? then Ok(d[k].i)
    else Err("error decoding key " + k)
  }

  function DecodeObjectId(d: Doc, k: string): (r: Result<string>)
    ensures r.Err? <==> k in d && d[k] != Null && !d[k].ObjectId?
  {
    if k !in d || d[k] == Null then Ok(ZeroObjectId)
    else if d[k].ObjectId? then Ok(d[k].hex)
    else Err("error decoding key " + k)
  }

  /** No encoded user has Mongo's "_id", so InsertOne always adds its own. */
  lemma NoMongoId(u: User)
    ensures "_id" !in EncodeUser(u)
  {
    var d := EncodeUser(u);
    forall k | k in d ensures k != "_id" {
      assert k[0] != '_';
    }
  }

  /** Decode(&user): keys the struct does not know (such as Mongo's own "_id") are ignored. */
  function DecodeUser(d: Doc): (r: Result<User>)
    ensures r.Ok? ==> r.value.email == (if "email" in d && d["email"].Str? then Some(d["email"].s) else None)
    ensures r.Ok? ==> r.value.userId == (if "userid" in d && d["userid"].Str? then d["userid"].s else "")
  {
    var id := DecodeObjectId(d, "id");
    var first := DecodePtr(d, "firstname");
    var last := DecodePtr(d, "lastname");
    var password := DecodePtr(d, "password");
    var email := DecodePtr(d, "email");
    var phone := DecodePtr(d, "phone");
    var token := DecodePtr(d, "token");
    var userType := DecodePtr(d, "usertype");
    var refresh := DecodePtr(d, "refreshtoken");
    var created := DecodeTime(d, "createdat");
    var updated := DecodeTime(d, "updatedat");
    var userId := DecodeStr(d, "userid");
    if id.Err? then Err(id.error)
    else if first.Err? then Err(first.error)
    else if last.Err? then Err(last.error)
    else if password.Err? then Err(password.error)
    else if email.Err? then Err(email.error)
    else if phone.Err? then Err(phone.error)
    else if token.Err? then Err(token.error)
    else if userType.Err? then Err(userType.error)
    else if refresh.Err? then Err(refresh.error)
    else if created.Err? then Err(created.error)
    else if updated.Err? then Err(updated.error)
    else if userId.Err? then Err(userId.error)
    else Ok(User(id.value, first.value, last.value, password.value, email.value, phone.value, token.value,
                 userType.value, refresh.value, created.value, updated.value, userId.value))
  }

  // ---- decoding into an existing User ----------------------------------------------------------

  /** A field of the target after Decode: the freshly decoded value when the document has the key,
      otherwise the value the target already held. */
  function Pick<T>(d: Doc, k: string, decoded: T, kept: T): T {
    if k in d then decoded else kept
  }

  /** `base` with every field whose key `d` holds replaced by the corresponding field of `decoded`. */
  function Overlay(base: User, decoded: User, d: Doc): User {
    User(Pick(d, "id", decoded.id, base.id), Pick(d, "firstname", decoded.firstName, base.firstName),
         Pick(d, "lastname", decoded.lastName, base.lastName), Pick(d, "password", decoded.password, base.password),
         Pick(d, "email", decoded.email, base.email), Pick(d, "phone", decoded.phone, base.phone),
         Pick(d, "token", decoded.token, base.token), Pick(d, "usertype", decoded.userType, base.userType),
         Pick(d, "refreshtoken", decoded.refreshToken, base.refreshToken),
         Pick(d, "createdat", decoded.createdAt, base.createdAt), Pick(d, "updatedat", decoded.updatedAt, base.updatedAt),
         Pick(d, "userid", decoded.userId, base.userId))
  }

  /** A field decoder that leaves the target's value when the key is absent. */
  function Into<T>(d: Doc, k: string, decoded: Result<T>, kept: T): Result<T> {
    if k in d then decoded else Ok(kept)
  }

  /** FindOne(...).Decode(&base): the driver does not zero the target. The fields are walked in struct
      order; a present key overwrites its field and an absent key leaves it, and the first field that
      does not decode stops the walk with the fields before it already written. Without an error the
      result is `base` overlaid with a fresh decoding on the keys present; the error is the one a
      fresh decoding reports. */
  function DecodeUserInto(base: User, d: Doc): (r: (User, Option<string>))
    ensures r.1.None? <==> DecodeUser(d).Ok?
    ensures r.1.Some? ==> r.1.value == DecodeUser(d).error
    ensures r.1.None? ==> r.0 == Overlay(base, DecodeUser(d).value, d)
  {
    var id := Into(d, "id", DecodeObjectId(d, "id"), base.id);
    var first := Into(d, "firstname", DecodePtr(d, "firstname"), base.firstName);
    var last := Into(d, "lastname", DecodePtr(d, "lastname"), base.lastName);
    var password := Into(d, "password", DecodePtr(d, "password"), base.password);
    var email := Into(d, "email", DecodePtr(d, "email"), base.email);
    var phone := Into(d, "phone", DecodePtr(d, "phone"), base.phone);
    var token := Into(d, "token", DecodePtr(d, "token"), base.token);
    var userType := Into(d, "usertype", DecodePtr(d, "usertype"), base.userType);
    var refresh := Into(d, "refreshtoken", DecodePtr(d, "refreshtoken"), base.refreshToken);
    var created := Into(d, "createdat", DecodeTime(d, "createdat"), base.createdAt);
    var updated := Into(d, "updatedat", DecodeTime(d, "updatedat"), base.updatedAt);
    var userId := Into(d, "userid", DecodeStr(d, "userid"), base.userId);
    if id.Err? then (base, Some(id.error))
    else var u1 := base.(id := id.value);
    if first.Err? then (u1, Some(first.error))
    else var u2 := u1.(firstName := first.value);
    if last.Err? then (u2, Some(last.error))
    else var u3 := u2.(lastName := last.value);
    if password.Err? then (u3, Some(password.error))
    else var u4 := u3.(password := password.value);
    if email.Err? then (u4, Some(email.error))
    else var u5 := u4.(email := email.value);
    if phone.Err? then (u5, Some(phone.error))
    else var u6 := u5.(phone := phone.value);
    if token.Err? then (u6, Some(token.error))
    else var u7 := u6.(token := token.value);
    if userType.Err? then (u7, Some(userType.error))
    else var u8 := u7.(userType := userType.value);
    if refresh.Err? then (u8, Some(refresh.error))
    else var u9 := u8.(refreshToken := refresh.value);
    if created.Err? then (u9, Some(created.error))
    else var u10 := u9.(createdAt := created.value);
    if updated.Err? then (u10, Some(updated.error))
    else var u11 := u10.(updatedAt := updated.value);
    if userId.Err? then (u11, Some(userId.error))
    else (u11.(userId := userId.value), None)
  }

  /** The document an upsert by userid that sets only "updatedat" inserts changes only UpdatedAt of a
      target that already has that userid. */
  lemma UpsertedDocumentKeepsFields(base: User, t: int, oid: string)
    ensures DecodeUserInto(base, map["userid" := Str(base.userId), "updatedat" := DateTime(t), "_id" := ObjectId(oid)])
            == (base.(updatedAt := t), None)
  {
    NoMongoId(base);
    SparseDocumentKeepsFields(base, base.userId, t, map["_id" := ObjectId(oid)]);
    assert map["_id" := ObjectId(oid)]["userid" := Str(base.userId)]["updatedat" := DateTime(t)]
           == map["userid" := Str(base.userId), "updatedat" := DateTime(t), "_id" := ObjectId(oid)];
  }

  /** Decoding into a zero User is a fresh decoding. */
  lemma DecodeIntoZero(d: Doc)
    requires DecodeUser(d).Ok?
    ensures DecodeUserInto(ZeroUser, d) == (DecodeUser(d).value, None)
  {
  }

  /** A document that holds only "userid", "updatedat" and keys the struct does not know, such as
      "_id", changes only those two fields of the target. */
  lemma SparseDocumentKeepsFields(base: User, userId: string, t: int, extra: Doc)
    requires forall k :: k in extra ==> k !in EncodeUser(base)
    ensures DecodeUserInto(base, extra["userid" := Str(userId)]["updatedat" := DateTime(t)])
            == (base.(userId := userId, updatedAt := t), None)
  {
    var d := extra["userid" := Str(userId)]["updatedat" := DateTime(t)];
    assert "userid" in EncodeUser(base) && "updatedat" in EncodeUser(base);
    assert forall k :: k in EncodeUser(base) && k != "userid" && k != "updatedat" ==> k !in d;
  }

  /** A stored user reads back as it was written, whatever "_id" Mongo added and whatever other fields
      the struct does not know. */
  lemma UserRoundTrip(u: User, extra: Doc)
    ensures DecodeUser(extra + EncodeUser(u)) == Ok(u)
  {
    EncodeStores(u);
    StoresKept(EncodeUser(u), extra + EncodeUser(u), u);
    DecodeStored(extra + EncodeUser(u), u);
  }

  lemma DecodeStored(d: Doc, u: User)
    requires Stores(d, u)
    ensures DecodeUser(d) == Ok(u)
  {
    PtrRoundTrip(d, "firstname", u.firstName);
    PtrRoundTrip(d, "lastname", u.lastName);
    PtrRoundTrip(d, "password", u.password);
    PtrRoundTrip(d, "email", u.email);
    PtrRoundTrip(d, "phone", u.phone);
    PtrRoundTrip(d, "token", u.token);
    PtrRoundTrip(d, "usertype", u.userType);
    PtrRoundTrip(d, "refreshtoken", u.refreshToken);
  }

  lemma PtrRoundTrip(d: Doc, k: string, o: Option<string>)
    requires k in d && d[k] == Ptr(o)
    ensures DecodePtr(d, k) == Ok(o)
  {
  }

  function EncodeTask(t: Task): (d: Doc)
    ensures d.Keys == {"id", "title", "description", "status", "duedate"}
  {
    map["id" := Str(t.id), "title" := Str(t.title), "description" := Str(t.description),
        "status" := Str(t.status), "duedate" := DateTime(t.dueDate)]
  }

  /** Decode(&task): ID from "id" (its bson tag), the others from their lower-cased names. */
  function DecodeTask(d: Doc): (r: Result<Task>)
    ensures r.Ok? ==> r.value.id == (if "id" in d && d["id"].Str? then d["id"].s else "")
  {
    var id := DecodeStr(d, "id");
    var title := DecodeStr(d, "title");
    var description := DecodeStr(d, "description");
    var due := DecodeTime(d, "duedate");
    var status := DecodeStr(d, "status");
    if id.Err? then Err(id.error)
    else if title.Err? then Err(title.error)
    else if description.Err? then Err(description.error)
    else if due.Err? then Err(due.error)
    else if status.Err? then Err(status.error)
    else Ok(Task(id.value, title.value, description.value, due.value, status.value))
  }

  lemma TaskRoundTrip(t: Task, extra: Doc)
    requires extra.Keys !! EncodeTask(t).Keys
    ensures DecodeTask(extra + EncodeTask(t)) == Ok(t)
  {
  }
}
