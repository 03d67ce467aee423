/** Token issuance and validation, identical in task_manger_clean_architecture/infrastructure/token_helper.go
    and task_manager_with_auth_task_6/helpers/token_helper.go. The tokens are JSON Web Tokens (RFC 7519)
    signed with HMAC-SHA256 (section 3.2 of RFC 7518); signing and parsing with the secret key are the
    parameters `sign` and `parse`, and the clock is `now`, in Unix seconds. */
module Tokens {
  import opened Wrappers

  /** The claims: five identity strings and the registered "exp" claim (section 4.1.4 of RFC 7519). */
  datatype SignedDetails = SignedDetails(email: string, firstName: string, lastName: string, uid: string,
                                         userType: string, expiresAt: int)

  /** What SignedString gives: the compact token, or an error (and then the empty string). */
  datatype Signing = Signed(token: string) | SignFailed(err: string)

  /** The two tokens, or the panic that ends GenerateAllTokens. */
  datatype Issued = Issued(token: string, refreshToken: string) | Panicked(reason: string)

  /** What jwt.ParseWithClaims hands back: no token at all (a malformed string), or a token whose
      claims are SignedDetails or something else (None), with the parse error if there was one. */
  datatype Parsed = NoToken(failure: string) | Token(claims: Option<SignedDetails>, err: Option<string>)

  /** ValidateToken's (claims, msg), or the panic of a nil dereference. */
  datatype Validation = Validation(claims: Option<SignedDetails>, msg: string) | ValidationPanicked(reason: string)

  const Hour := 3600
  const AccessLifetime := 24 * Hour
  const RefreshLifetime := 168 * Hour
  const NilDeref := "invalid memory address or nil pointer dereference"
  const Expired := "token has expired "

  function AccessClaims(email: string, firstName: string, lastName: string, userType: string, uid: string,
                        now: int): (c: SignedDetails)
    ensures c.email == email && c.firstName == firstName && c.lastName == lastName
    ensures c.userType == userType && c.uid == uid
    ensures c.expiresAt == now + 86400
  {
    SignedDetails(email, firstName, lastName, uid, userType, now + AccessLifetime)
  }

  function RefreshClaims(now: int): (c: SignedDetails)
    ensures c.email == "" && c.firstName == "" && c.lastName == "" && c.uid == "" && c.userType == ""
    ensures c.expiresAt == now + 604800
  {
    SignedDetails("", "", "", "", "", now + RefreshLifetime)
  }

  function TokenText(s: Signing): string {
    match s
    case Signed(t) => t
    case SignFailed(_) => ""
  }

  /** GenerateAllTokens: the pointer arguments are dereferenced while the access claims are built; the
      first signing error is overwritten by the second, so only a failed refresh signing panics, and
      `log.Panic()` with no arguments panics with the empty message. */
  function GenerateAllTokens(email: string, firstName: Option<string>, lastName: Option<string>,
                             userType: Option<string>, uid: Option<string>, now: int,
                             sign: SignedDetails -> Signing): (r: Issued)
    ensures r.Panicked? <==> firstName.None? || lastName.None? || userType.None? || uid.None?
                             || sign(RefreshClaims(now)).SignFailed?
    ensures r.Panicked? ==> r.reason == if firstName.None? || lastName.None? || userType.None? || uid.None?
                                         then NilDeref else ""
    ensures r.Issued? ==>
              && r.token == TokenText(sign(AccessClaims(email, firstName.value, lastName.value, userType.value,
                                                        uid.value, now)))
              && r.refreshToken == sign(RefreshClaims(now)).token
  {
    if firstName.None? || lastName.None? || userType.None? || uid.None? then Panicked(NilDeref)
    else
      var claims := AccessClaims(email, firstName.value, lastName.value, userType.value, uid.value, now);
      var refreshClaims := RefreshClaims(now);
      var token := sign(claims);
      var refreshToken := sign(refreshClaims);
      match refreshToken
      case SignFailed(_) => Panicked("")
      case Signed(rt) => Issued(TokenText(token), rt)
  }

  /** ValidateToken. */
  function ValidateToken(signedToken: string, now: int, parse: string -> Parsed): (r: Validation)
    ensures parse(signedToken).NoToken? ==> r.ValidationPanicked?
    ensures parse(signedToken).Token? && parse(signedToken).claims.None? ==>
              if parse(signedToken).err.Some? then r == Validation(None, parse(signedToken).err.value)
              else r.ValidationPanicked?
    ensures parse(signedToken).Token? && parse(signedToken).claims.Some? ==>
              var c := parse(signedToken).claims.value;
              && r.Validation? && r.claims == Some(c)
              && (c.expiresAt < now ==> r.msg == Expired)
              && (now <= c.expiresAt ==> r.msg == if parse(signedToken).err.Some? then parse(signedToken).err.value else "")
  {
    match parse(signedToken)
    case NoToken(_) => ValidationPanicked(NilDeref)
    case Token(claims, err) =>
      var msg := if err.Some? then err.value else "";
      match claims
      case None => if err.Some? then Validation(None, err.value) else ValidationPanicked(NilDeref)
      case Some(c) => if c.expiresAt < now then Validation(Some(c), Expired) else Validation(Some(c), msg)
  }

  /** When the library's errors carry text, an empty msg means exactly: claims parsed, no parse error,
      and not past "exp"; an expiry equal to now still passes. */
  lemma AcceptedIffCleanAndUnexpired(signedToken: string, now: int, parse: string -> Parsed)
    requires parse(signedToken).Token?
    requires parse(signedToken).err.Some? ==> parse(signedToken).err.value != ""
    ensures var r := ValidateToken(signedToken, now, parse);
            r.Validation? && r.msg == "" <==>
              parse(signedToken).claims.Some? && parse(signedToken).err.None?
              && now <= parse(signedToken).claims.value.expiresAt
  {
  }

  /** An issued access token that parses back to its claims is accepted, with the caller's identity,
      from issue time up to and including 24 hours later, and reported expired after that — whatever
      the parse error then is. */
  lemma {:induction false} AccessTokenLifetime(email: string, firstName: string, lastName: string, userType: string,
                                             uid: string, now: int, later: int,
                                             sign: SignedDetails -> Signing, parse: string -> Parsed)
    requires sign(RefreshClaims(now)).Signed?
    requires var c := AccessClaims(email, firstName, lastName, userType, uid, now);
             sign(c).Signed? && parse(sign(c).token).Token? && parse(sign(c).token).claims == Some(c)
    requires later <= now + AccessLifetime ==> parse(sign(AccessClaims(email, firstName, lastName, userType, uid, now)).token).err.None?
    ensures var r := GenerateAllTokens(email, Some(firstName), Some(lastName), Some(userType), Some(uid), now, sign);
            var v := ValidateToken(r.token, later, parse);
            && r.Issued?
            && (now <= later <= now + AccessLifetime ==>
                  v == Validation(Some(SignedDetails(email, firstName, lastName, uid, userType, now + 86400)), ""))
            && (later > now + AccessLifetime ==> v.Validation? && v.msg == Expired)
  {
    var c := AccessClaims(email, firstName, lastName, userType, uid, now);
    var r := GenerateAllTokens(email, Some(firstName), Some(lastName), Some(userType), Some(uid), now, sign);
    assert r.token == sign(c).token;
  }

  /** A refresh token carries no identity: even when accepted, every identity claim is empty. */
  lemma RefreshTokenIsAnonymous(now: int, later: int, sign: SignedDetails -> Signing, parse: string -> Parsed)
    requires sign(RefreshClaims(now)).Signed?
    requires parse(sign(RefreshClaims(now)).token) == Token(Some(RefreshClaims(now)), None)
    requires later <= now + RefreshLifetime
    ensures var v := ValidateToken(sign(RefreshClaims(now)).token, later, parse);
            v.Validation? && v.msg == "" && v.claims.Some? && v.claims.value.userType == "" && v.claims.value.uid == ""
  {
  }
}
