/**
 * The two-stage request pipeline of `SocialHub_Public`: at the
 * `determine_current_user` stage a token is validated and either resolves the
 * user or leaves a failure in `jwt_error`; at the `rest_pre_dispatch` stage
 * that failure, if any, replaces the REST response.
 */
module RequestAuth {
  import opened Wrappers
  import opened PhpValues
  import opened TokenValidation

  // ---------------------------------------------------------------------
  // strpos($_SERVER['REQUEST_URI'], rest_get_url_prefix())

  predicate OccursAt(haystack: string, needle: string, i: int)
  {
    0 <= i && i + |needle| <= |haystack| && haystack[i..i + |needle|] == needle
  }

  lemma OccursAtShift(haystack: string, needle: string)
    requires haystack != []
    ensures forall j :: 1 <= j ==> (OccursAt(haystack, needle, j) <==> OccursAt(haystack[1..], needle, j - 1))
  {
  }

  /** `strpos($haystack, $needle)`: the index of the first occurrence, or None for `false`. */
  function StrPos(haystack: string, needle: string): (r: Option<nat>)
    ensures r.Some? ==> OccursAt(haystack, needle, r.value)
    ensures r.Some? ==> forall j :: 0 <= j < r.value ==> !OccursAt(haystack, needle, j)
    ensures r.None? ==> forall j :: !OccursAt(haystack, needle, j)
    decreases |haystack|
  {
    if |haystack| < |needle| then None
    else if haystack[..|needle|] == needle then Some(0)
    else
      OccursAtShift(haystack, needle);
      match StrPos(haystack[1..], needle)
      case Some(i) => Some(i + 1)
      case None => None
  }

  /** Line 78: the token is looked at only when `strpos` is truthy, that is,
      found at a non-zero index. An unset REQUEST_URI reads as null, which
      strpos treats as "". */
  function IsRestRequest(requestUri: Option<string>, restPrefix: string): (b: bool)
    // A prefix at the very start of the URI, or an empty prefix, never counts.
    ensures b ==> restPrefix != [] && !OccursAt(requestUri.GetOr(""), restPrefix, 0)
    ensures b ==> exists j :: 0 < j && OccursAt(requestUri.GetOr(""), restPrefix, j)
    // Nor does an unset REQUEST_URI.
    ensures requestUri.None? ==> !b
  {
    assert restPrefix == [] ==> OccursAt(requestUri.GetOr(""), restPrefix, 0);
    match StrPos(requestUri.GetOr(""), restPrefix)
    case Some(i) => assert OccursAt(requestUri.GetOr(""), restPrefix, i); i != 0
    case None => false
  }

  /** A request counts as REST exactly when the prefix occurs somewhere after
      index 0 and not at index 0 itself: a URI that starts with the prefix is
      never authenticated, nor is an empty prefix. */
  lemma RestRequestCharacterized(requestUri: Option<string>, restPrefix: string)
    ensures var uri := requestUri.GetOr("");
      IsRestRequest(requestUri, restPrefix) <==>
        !OccursAt(uri, restPrefix, 0) && exists j :: 0 < j && OccursAt(uri, restPrefix, j)
  {
    var uri := requestUri.GetOr("");
    match StrPos(uri, restPrefix)
    case Some(i) =>
      if i == 0 {
        assert OccursAt(uri, restPrefix, 0);
      } else {
        assert OccursAt(uri, restPrefix, i);
      }
    case None =>
  }

  // ---------------------------------------------------------------------
  // determine_current_user, as a function of its inputs

  /** What the `determine_current_user` stage returns, and the failure it hands
      on to `rest_pre_dispatch` (None: it stores nothing). */
  datatype Resolution = Resolution(user: Value, deferred: Option<AuthError>)

  /** `$token->user->id`. */
  function TokenUserId(claims: Value): Value
  {
    Prop(Prop(claims, "user"), "id")
  }

  /** Lines 76-97 of class-socialhub-public.php, given whether the request is a
      REST request and what validate_token returns. */
  function Resolve(user: Value, rest: bool, validation: Result<Value, AuthError>): Resolution
  {
    if !rest then Resolution(user, None)
    else if Truthy(user) then Resolution(user, None)
    else
      match validation
      case Err(e) => if e.code != NoAuthToken then Resolution(user, Some(e)) else Resolution(user, None)
      case Ok(claims) => Resolution(TokenUserId(claims), None)
  }

  /** `determine_current_user`, with the corrected issuer test. */
  function ResolveUser(user: Value, req: Request, secret: string, decode: Decoder): (res: Resolution)
    // An existing user is never overridden, and non-REST requests are never looked at.
    ensures Truthy(user) ==> res == Resolution(user, None)
    ensures !IsRestRequest(req.requestUri, req.restPrefix) ==> res == Resolution(user, None)
    // The user changes only to the id of a fully validated token.
    ensures res.user != user ==>
      ValidateToken(req, secret, decode).Ok? && res.user == TokenUserId(ValidateToken(req, secret, decode).value)
    // A failure is handed on exactly when a REST request without a user fails
    // validation for a reason other than "no token"; it is the validation error
    // itself, and the user is then returned unchanged.
    ensures res.deferred.Some? <==>
      && IsRestRequest(req.requestUri, req.restPrefix) && !Truthy(user)
      && ValidateToken(req, secret, decode).Err?
      && ValidateToken(req, secret, decode).error.code != NoAuthToken
    ensures res.deferred.Some? ==>
      res.user == user && Err(res.deferred.value) == ValidateToken(req, secret, decode)
  {
    Resolve(user, IsRestRequest(req.requestUri, req.restPrefix), ValidateToken(req, secret, decode))
  }

  /** `determine_current_user` exactly as written, with the loose issuer test. */
  function ResolveUserAsWritten(user: Value, req: Request, secret: string, decode: Decoder): (res: Resolution)
    // It agrees with the corrected stage whenever validation does.
    ensures ValidateTokenAsWritten(req, secret, decode) == ValidateToken(req, secret, decode) ==>
      res == ResolveUser(user, req, secret, decode)
    ensures Truthy(user) || !IsRestRequest(req.requestUri, req.restPrefix) ==> res == Resolution(user, None)
    // A token that passes the loose checks logs the client in as its user id.
    ensures (IsRestRequest(req.requestUri, req.restPrefix) && !Truthy(user)
             && ValidateTokenAsWritten(req, secret, decode).Ok?) ==>
      res == Resolution(TokenUserId(ValidateTokenAsWritten(req, secret, decode).value), None)
    // Any other failure than "no token" is handed on, and only then.
    ensures res.deferred.Some? <==>
      && IsRestRequest(req.requestUri, req.restPrefix) && !Truthy(user)
      && ValidateTokenAsWritten(req, secret, decode).Err?
      && ValidateTokenAsWritten(req, secret, decode).error.code != NoAuthToken
    ensures res.deferred.Some? ==>
      res.user == user && Err(res.deferred.value) == ValidateTokenAsWritten(req, secret, decode)
    ensures res.user != user ==>
      && ValidateTokenAsWritten(req, secret, decode).Ok?
      && res.user == TokenUserId(ValidateTokenAsWritten(req, secret, decode).value)
  {
    Resolve(user, IsRestRequest(req.requestUri, req.restPrefix), ValidateTokenAsWritten(req, secret, decode))
  }

  /** A REST request without a user and with a valid token resolves to the
      token's user id and hands on nothing. */
  lemma ValidTokenResolvesUser(user: Value, req: Request, secret: string, decode: Decoder)
    requires IsRestRequest(req.requestUri, req.restPrefix) && !Truthy(user)
    requires ValidateToken(req, secret, decode).Ok?
    ensures ResolveUser(user, req, secret, decode)
      == Resolution(TokenUserId(ValidateToken(req, secret, decode).value), None)
    ensures PropIsSet(Prop(ValidateToken(req, secret, decode).value, "user"), "id")
  {
  }

  /** No token anywhere: the user is returned unchanged and nothing is handed on. */
  lemma NoTokenIsSilent(user: Value, req: Request, secret: string, decode: Decoder)
    requires !IsSetAndTruthy(req.httpAuthorization)
    requires !IsSetAndTruthy(req.redirectHttpAuthorization)
    requires !IsSetAndTruthy(req.accessToken)
    ensures ResolveUser(user, req, secret, decode) == Resolution(user, None)
  {
    NoTokenAnywhere(req, secret, decode);
  }

  lemma ScenarioUriIsRest()
    ensures IsRestRequest(Some("/wp-json/wp/v2/posts"), "wp-json")
  {
    var uri := "/wp-json/wp/v2/posts";
    assert uri[0] == '/' && "wp-json"[0] == 'w';
    assert !OccursAt(uri, "wp-json", 0);
    assert OccursAt(uri, "wp-json", 1);
    RestRequestCharacterized(Some(uri), "wp-json");
  }

  lemma ScenarioHeaderYieldsToken(req: Request)
    requires req.httpAuthorization == Some("Bearer abc")
    ensures ExtractToken(req) == Ok("abc")
  {
    var h := "Bearer abc";
    assert h[..|Scheme|] == Scheme;
    assert h[6] == ' ' && !IsSpace(h[7]) && !IsSpace(h[8]) && !IsSpace(h[9]);
    ScanBearerComplete(h, 7, 10);
    assert h[7..10] == "abc";
  }

  /** A token signed with the site key but issued by another system, sent on
      `/wp-json/wp/v2/posts` by an anonymous client: the user stays anonymous
      and socialhub_bad_iss is handed on to `rest_pre_dispatch`. */
  lemma ForeignIssuerIsDeferred()
    ensures var claims := Obj(map["iss" := Str("OtherSystem"), "user" := Obj(map["id" := Int(42)])]);
      var decode: Decoder := (token, key) => if token == "abc" && key == "k1" then Ok(claims) else Err("Signature verification failed");
      var req := Request(Some("Bearer abc"), None, Some("xyz"), Some("/wp-json/wp/v2/posts"), "wp-json");
      ResolveUser(Bool(false), req, "k1", decode) == Resolution(Bool(false), Some(Reject(BadIss)))
  {
    var claims := Obj(map["iss" := Str("OtherSystem"), "user" := Obj(map["id" := Int(42)])]);
    var decode: Decoder := (token, key) => if token == "abc" && key == "k1" then Ok(claims) else Err("Signature verification failed");
    var req := Request(Some("Bearer abc"), None, Some("xyz"), Some("/wp-json/wp/v2/posts"), "wp-json");
    ScenarioUriIsRest();
    ScenarioHeaderYieldsToken(req);
    assert CheckClaims(claims) == Err(Reject(BadIss)) by {
      assert Prop(claims, "iss") == Str("OtherSystem");
    }
    assert ValidateToken(req, "k1", decode) == Err(Reject(BadIss));
  }

  /** The loose issuer comparison as written logs an anonymous REST client in
      as user 1 with a token whose payload is `{"iss": true, "user": {"id": 1}}`;
      the corrected test keeps the client anonymous and hands on
      socialhub_bad_iss. */
  lemma TrueIssuerLogsInAsWritten()
    ensures var claims := Obj(map["iss" := Bool(true), "user" := Obj(map["id" := Int(1)])]);
      var decode: Decoder := (token, key) => if token == "abc" && key == "k1" then Ok(claims) else Err("Signature verification failed");
      var req := Request(Some("Bearer abc"), None, None, Some("/wp-json/wp/v2/posts"), "wp-json");
      && ResolveUserAsWritten(Bool(false), req, "k1", decode) == Resolution(Int(1), None)
      && ResolveUser(Bool(false), req, "k1", decode) == Resolution(Bool(false), Some(Reject(BadIss)))
  {
    var claims := Obj(map["iss" := Bool(true), "user" := Obj(map["id" := Int(1)])]);
    var decode: Decoder := (token, key) => if token == "abc" && key == "k1" then Ok(claims) else Err("Signature verification failed");
    var req := Request(Some("Bearer abc"), None, None, Some("/wp-json/wp/v2/posts"), "wp-json");
    ScenarioUriIsRest();
    ScenarioHeaderYieldsToken(req);
    TrueIssuerPassesAsWritten();
    assert ValidateTokenAsWritten(req, "k1", decode) == Ok(claims);
    assert ValidateToken(req, "k1", decode) == Err(Reject(BadIss));
    assert TokenUserId(claims) == Int(1) by {
      assert Prop(claims, "user") == Obj(map["id" := Int(1)]);
    }
  }

  // ---------------------------------------------------------------------
  // The plugin object

  /** What `rest_pre_dispatch` returns: the value it was given, or the stored error. */
  datatype PreDispatch<T> = Proceed(value: T) | Halt(error: AuthError)

  /** `SocialHub_Public`: WordPress builds one instance per PHP request and
      registers it on both hooks, so `jwt_error` carries a failure from the
      first stage to the second. */
  class SocialHubPublic {
    /** `jwt_error`: the failure kept for rest_pre_dispatch, None while it is null. */
    var jwtError: Option<AuthError>

    /** What is ever stored: a 403 error that is not "no token". */
    ghost predicate Valid()
      reads this
    {
      jwtError.Some? ==> jwtError.value.code != NoAuthToken && jwtError.value.status == Forbidden
    }

    constructor ()
      ensures Valid() && jwtError == None
    {
      jwtError := None;
    }

    /** `determine_current_user($user)`. */
    method DetermineCurrentUser(user: Value, req: Request, secret: string, decode: Decoder) returns (r: Value)
      requires Valid()
      modifies this
      ensures Valid()
      ensures r == ResolveUser(user, req, secret, decode).user
      ensures jwtError == match ResolveUser(user, req, secret, decode).deferred
                          case Some(e) => Some(e)
                          case None => old(jwtError)
      ensures old(jwtError).Some? ==> jwtError.Some?
    {
      if !IsRestRequest(req.requestUri, req.restPrefix) {
        return user;
      }
      if Truthy(user) {
        return user;
      }
      var token := ValidateToken(req, secret, decode);
      if token.Err? {
        if token.error.code != NoAuthToken {
          jwtError := Some(token.error);
          return user;
        } else {
          return user;
        }
      }
      return TokenUserId(token.value);
    }

    /** `rest_pre_dispatch($request)`: replay the stored failure, or pass through. */
    method RestPreDispatch<T>(result: T) returns (r: PreDispatch<T>)
      requires Valid()
      ensures jwtError.None? ==> r == Proceed(result)
      ensures jwtError.Some? ==> r == Halt(jwtError.value)
      ensures r.Halt? ==> r.error.status == Forbidden && r.error.code != NoAuthToken
    {
      if jwtError.Some? {
        return Halt(jwtError.value);
      }
      return Proceed(result);
    }
  }

  /** One REST request through a fresh plugin object: the `determine_current_user`
      stage, then the `rest_pre_dispatch` stage. The request is halted exactly
      when validation failed for a reason other than "no token" on a REST
      request without a user, and then with that very error. */
  method HandleRequest<T>(user: Value, req: Request, secret: string, decode: Decoder, result: T)
    returns (resolved: Value, outcome: PreDispatch<T>)
    ensures resolved == ResolveUser(user, req, secret, decode).user
    ensures outcome.Halt? <==>
      && IsRestRequest(req.requestUri, req.restPrefix) && !Truthy(user)
      && ValidateToken(req, secret, decode).Err?
      && ValidateToken(req, secret, decode).error.code != NoAuthToken
    ensures outcome.Halt? ==>
      Err(outcome.error) == ValidateToken(req, secret, decode) && outcome.error.status == Forbidden
      && resolved == user
    ensures outcome.Proceed? ==> outcome.value == result
  {
    var plugin := new SocialHubPublic();
    resolved := plugin.DetermineCurrentUser(user, req, secret, decode);
    outcome := plugin.RestPreDispatch(result);
  }
}
