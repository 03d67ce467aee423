/** The authentication middlewares: task_manger_clean_testing/delivery/middleware/middleware.go reads a
    two-piece Authorization header, task_manager_with_auth_task_6/middleware/auth_middleware.go the raw
    "token" header. Both validate the token and copy five identity claims into the request context. */
module Middleware {
  import opened Wrappers
  import opened Http
  import opened GoStrings
  import opened Tokens
  import Auth

  /** Request headers, each with the first value Header.Get gives, keyed by the name exactly as the
      handler asks for it ("Authorization", "token"). Go's Header.Get canonicalises the name through
      CanonicalMIMEHeaderKey, so a header sent as "token", "TOKEN" or "Token" is the same entry: the
      map stands for the canonical key, already looked up under the handler's spelling. */
  type Headers = map<string, string>

  /** c.GetHeader: a missing header reads as "". */
  function HeaderGet(headers: Headers, name: string): (v: string)
    ensures name in headers ==> v == headers[name]
    ensures name !in headers ==> v == ""
  {
    if name in headers then headers[name] else ""
  }

  /** The outcome of the header checks: abort with one JSON field, pass on the claims, or panic. */
  datatype Decision = Reject(key: string, text: string) | Accept(claims: SignedDetails) | Panic(reason: string)

  /** The validation step both middlewares share: a non-empty msg rejects under `errorKey`; an empty msg
      with no claims would dereference nil. */
  function CheckToken(token: string, now: int, parse: string -> Parsed, errorKey: string): (d: Decision)
    ensures d.Accept? <==> (ValidateToken(token, now, parse).Validation? && ValidateToken(token, now, parse).msg == ""
                            && ValidateToken(token, now, parse).claims.Some?)
    ensures d.Accept? ==> Some(d.claims) == ValidateToken(token, now, parse).claims
    ensures d.Reject? <==> (ValidateToken(token, now, parse).Validation? && ValidateToken(token, now, parse).msg != "")
    ensures d.Reject? ==> d == Reject(errorKey, ValidateToken(token, now, parse).msg)
  {
    match ValidateToken(token, now, parse)
    case ValidationPanicked(reason) => Panic(reason)
    case Validation(claims, msg) =>
      if msg != "" then Reject(errorKey, msg)
      else if claims.None? then Panic(NilDeref)
      else Accept(claims.value)
  }

  /** The Authorization-header chain of the clean-architecture middleware. */
  function BearerDecision(header: string, now: int, parse: string -> Parsed): (d: Decision)
    ensures header == "" ==> d == Reject("error", "not Authorized")
    ensures header != "" && |Split(header, ' ')| != 2 ==> d == Reject("error", "invalid token format")
    ensures header != "" && |Split(header, ' ')| == 2 ==> d == CheckToken(Split(header, ' ')[1], now, parse, "errorsss")
  {
    if header == "" then Reject("error", "not Authorized")
    else
      var parts := Split(header, ' ');
      if |parts| != 2 then Reject("error", "invalid token format")
      else CheckToken(parts[1], now, parse, "errorsss")
  }

  /** The "token"-header chain of the task-6 middleware: the raw value is validated as it is. */
  function RawTokenDecision(header: string, now: int, parse: string -> Parsed): (d: Decision)
    ensures header == "" ==> d == Reject("error", "not Authorized")
    ensures header != "" ==> d == CheckToken(header, now, parse, "error")
  {
    if header == "" then Reject("error", "not Authorized") else CheckToken(header, now, parse, "error")
  }

  /** The context after the five c.Set calls of a successful authentication. */
  function WithIdentity(keys: Auth.Keys, c: SignedDetails): (r: Auth.Keys)
    ensures r.Keys == keys.Keys + {"email", "firstname", "lastname", "uid", "usertype"}
    ensures forall k :: k in keys && k !in {"email", "firstname", "lastname", "uid", "usertype"} ==> r[k] == keys[k]
    ensures r["email"] == c.email && r["firstname"] == c.firstName && r["lastname"] == c.lastName
    ensures r["uid"] == c.uid && r["usertype"] == c.userType
  {
    keys["email" := c.email]["firstname" := c.firstName]["lastname" := c.lastName]["uid" := c.uid]
        ["usertype" := c.userType]
  }

  /** An empty Authorization header is refused without consulting the validator. */
  lemma EmptyHeaderSkipsValidation(now: int, parse1: string -> Parsed, parse2: string -> Parsed)
    ensures BearerDecision("", now, parse1) == BearerDecision("", now, parse2) == Reject("error", "not Authorized")
    ensures RawTokenDecision("", now, parse1) == RawTokenDecision("", now, parse2) == Reject("error", "not Authorized")
  {
  }

  /** Exactly one space is required; the scheme word in front of it is never looked at, so "Token x"
      (or any other word, even the empty one) is treated like "Bearer x". */
  lemma SchemeIsIgnored(scheme: string, token: string, now: int, parse: string -> Parsed)
    requires ' ' !in scheme && ' ' !in token
    ensures BearerDecision(scheme + " " + token, now, parse) == CheckToken(token, now, parse, "errorsss")
  {
    var h := scheme + " " + token;
    assert h[|scheme|] == ' ';
    assert forall j :: 0 <= j < |h| && j != |scheme| ==> h[j] != ' ' by {
      forall j | 0 <= j < |h| && j != |scheme|
        ensures h[j] != ' '
      {
        if j < |scheme| {
          assert h[j] == scheme[j];
        } else {
          assert h[j] == token[j - |scheme| - 1];
        }
      }
    }
    SplitAtOnlySeparator(h, ' ', |scheme|);
    assert h[|scheme| + 1..] == token;
  }

  /** Two spaces anywhere (a doubled space, a trailing space after a token) make three pieces and are
      refused as a bad format. */
  lemma TwoSpacesRefused(a: string, b: string, c: string, now: int, parse: string -> Parsed)
    ensures BearerDecision(a + " " + b + " " + c, now, parse) == Reject("error", "invalid token format")
  {
    var h := a + " " + b + " " + c;
    assert multiset(h)[' '] == multiset(a)[' '] + multiset(b)[' '] + multiset(c)[' '] + 2 by {
      assert multiset(h) == multiset(a) + multiset{' '} + multiset(b) + multiset{' '} + multiset(c);
    }
  }

  /** The request context of one request: its keys, whether a handler aborted, and what was written. */
  class Context {
    var keys: Auth.Keys
    var aborted: bool
    var response: Option<Reply<string>>

    constructor ()
      ensures keys == map[] && !aborted && response.None?
    {
      keys := map[];
      aborted := false;
      response := None;
    }

    /** Carries out a decision: a rejection answers 500 with its one field and aborts, leaving the
        keys alone; an acceptance sets the five identity keys and writes nothing. */
    method Apply(d: Decision)
      modifies this
      ensures d.Reject? ==> keys == old(keys) && aborted && response == Some(Json(StatusInternalServerError, Fields([(d.key, d.text)])))
      ensures d.Accept? ==> keys == WithIdentity(old(keys), d.claims) && aborted == old(aborted) && response == old(response)
      ensures d.Panic? ==> keys == old(keys) && aborted == old(aborted) && response == Some(Crash(d.reason))
    {
      match d
      case Reject(key, text) =>
        response := Some(Json(StatusInternalServerError, Fields([(key, text)])));
        aborted := true;
      case Panic(reason) =>
        response := Some(Crash(reason));
      case Accept(claims) =>
        keys := keys["email" := claims.email];
        keys := keys["firstname" := claims.firstName];
        keys := keys["lastname" := claims.lastName];
        keys := keys["uid" := claims.uid];
        keys := keys["usertype" := claims.userType];
    }

    /** Authenticate of the clean-architecture middleware. */
    method Authenticate(headers: Headers, now: int, parse: string -> Parsed)
      modifies this
      ensures var d := BearerDecision(HeaderGet(headers, "Authorization"), now, parse);
              && (d.Reject? ==> keys == old(keys) && aborted
                                && response == Some(Json(StatusInternalServerError, Fields([(d.key, d.text)]))))
              && (d.Accept? ==> keys == WithIdentity(old(keys), d.claims) && aborted == old(aborted)
                                && response == old(response))
              && (d.Panic? ==> response == Some(Crash(d.reason)))
    {
      var clientToken := HeaderGet(headers, "Authorization");
      Apply(BearerDecision(clientToken, now, parse));
    }

    /** Authenticate of the task-6 middleware, reading the "token" header. */
    method AuthenticateToken(headers: Headers, now: int, parse: string -> Parsed)
      modifies this
      ensures var d := RawTokenDecision(HeaderGet(headers, "token"), now, parse);
              && (d.Reject? ==> keys == old(keys) && aborted
                                && response == Some(Json(StatusInternalServerError, Fields([(d.key, d.text)]))))
              && (d.Accept? ==> keys == WithIdentity(old(keys), d.claims) && aborted == old(aborted)
                                && response == old(response))
              && (d.Panic? ==> response == Some(Crash(d.reason)))
    {
      var clientToken := HeaderGet(headers, "token");
      Apply(RawTokenDecision(clientToken, now, parse));
    }
  }

  /** After a successful authentication the role checks see the token's claims: CheckUserType passes
      exactly for the token's user type. */
  lemma AcceptedIdentityFeedsRoleCheck(keys: Auth.Keys, c: SignedDetails, role: string)
    ensures Auth.CheckUserType(WithIdentity(keys, c), role).None? <==> c.userType == role
  {
  }
}
