/** task_manger_clean_architecture/infrastructure/auth_helper.go: role checks over the identity the
    authentication middleware stored in the request context. */
module Auth {
  import opened Wrappers

  /** The request context's string-valued keys, as gin.Context.Set stores them. */
  type Keys = map<string, string>

  /** c.GetString: the stored string, or "" when the key is absent. */
  function GetString(keys: Keys, key: string): (r: string)
    ensures key in keys ==> r == keys[key]
    ensures key !in keys ==> r == ""
  {
    if key in keys then keys[key] else ""
  }

  /** CheckUserType: a nil error exactly when the context's usertype is the role. */
  function CheckUserType(keys: Keys, role: string): (err: Option<string>)
    ensures err.None? <==> GetString(keys, "usertype") == role
    ensures err.Some? ==> err.value == "unauthorized to access"
  {
    var userType := GetString(keys, "usertype");
    if userType != role then Some("unauthorized to access") else None
  }

  /** MatchUserTypeToUid: only a lower-case "user" identity asking for someone else's uid is refused;
      the closing CheckUserType compares the usertype with itself. */
  function MatchUserTypeToUid(keys: Keys, userId: string): (err: Option<string>)
    ensures err.Some? <==> GetString(keys, "usertype") == "user" && GetString(keys, "uid") != userId
    ensures err.Some? ==> err.value == "unauthorized access"
  {
    var userType := GetString(keys, "usertype");
    var uid := GetString(keys, "uid");
    if userType == "user" && uid != userId then Some("unauthorized access")
    else CheckUserType(keys, userType)
  }

  /** With no usertype stored, every non-empty role is refused. */
  lemma AbsentUserTypeFails(keys: Keys, role: string)
    requires "usertype" !in keys && role != ""
    ensures CheckUserType(keys, role) == Some("unauthorized to access")
  {
  }

  /** The upper-case roles the domain validates ("ADMIN", "USER") always pass MatchUserTypeToUid,
      whatever uid they carry and whichever user they ask for. */
  lemma UpperCaseRolesAlwaysMatch(keys: Keys, userId: string)
    requires GetString(keys, "usertype") in {"ADMIN", "USER"}
    ensures MatchUserTypeToUid(keys, userId).None?
  {
  }

  /** A "user" identity asking for its own uid passes. */
  lemma OwnUidMatches(keys: Keys)
    ensures MatchUserTypeToUid(keys, GetString(keys, "uid")).None?
  {
  }
}
