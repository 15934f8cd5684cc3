/**
 * `SocialHub_Public::validate_token`: find a candidate token in the request,
 * decode it with the JWT library (RFC 7519 tokens signed with HS256, section
 * 3.2 of RFC 7518) and check its issuer and user-id claims. Every failure is a
 * tagged error with HTTP status 403.
 */
module TokenValidation {
  import opened Wrappers
  import opened PhpValues

  /** SOCIALHUB_ISSUER: the `iss` claim of every token this plugin mints. */
  const Issuer: string := "SocialHub"

  /** The `status` every validation error carries. */
  const Forbidden: int := 403

  /** The literal the Authorization header must start with. */
  const Scheme: string := "Bearer"

  datatype ErrorCode =
    | NoAuthToken                  // socialhub_no_auth_token
    | BadAuthHeader                // socialhub_bad_auth_header
    | InvalidToken(reason: string) // socialhub_invalid_token, with the decoder's exception message
    | BadIss                       // socialhub_bad_iss
    | BadRequest                   // socialhub_bad_request

  /** A WP_Error as validate_token builds it: its code and the `status` of its data. */
  datatype AuthError = AuthError(code: ErrorCode, status: int)

  function Reject(code: ErrorCode): AuthError
  {
    AuthError(code, Forbidden)
  }

  /** What the middleware reads from the request and the host. */
  datatype Request = Request(
    httpAuthorization: Option<string>,          // $_SERVER['HTTP_AUTHORIZATION']
    redirectHttpAuthorization: Option<string>,  // $_SERVER['REDIRECT_HTTP_AUTHORIZATION']
    accessToken: Option<string>,                // $_GET['access_token']
    requestUri: Option<string>,                 // $_SERVER['REQUEST_URI']
    restPrefix: string)                         // rest_get_url_prefix()

  /** `JWT::decode($token, $secret, array('HS256'))`: the decoded payload, or the
      message of the exception the library throws. */
  type Decoder = (string, string) -> Result<Value, string>

  // ---------------------------------------------------------------------
  // Where the candidate comes from

  /** The string validate_token goes on with: a header value still to be parsed,
      a query-parameter token used as it is, or nothing. */
  datatype Candidate = FromHeader(header: string) | FromQuery(token: string) | NotFound

  /** HTTP_AUTHORIZATION if truthy, else REDIRECT_HTTP_AUTHORIZATION if truthy,
      else the access_token query parameter if truthy. */
  function FindCandidate(req: Request): (r: Candidate)
    ensures r.NotFound? <==>
      !IsSetAndTruthy(req.httpAuthorization) && !IsSetAndTruthy(req.redirectHttpAuthorization)
      && !IsSetAndTruthy(req.accessToken)
    // The first truthy source in the order HTTP_AUTHORIZATION,
    // REDIRECT_HTTP_AUTHORIZATION, access_token is taken, and only that one.
    ensures IsSetAndTruthy(req.httpAuthorization) ==> r == FromHeader(req.httpAuthorization.value)
    ensures !IsSetAndTruthy(req.httpAuthorization) && IsSetAndTruthy(req.redirectHttpAuthorization)
      ==> r == FromHeader(req.redirectHttpAuthorization.value)
    ensures (!IsSetAndTruthy(req.httpAuthorization) && !IsSetAndTruthy(req.redirectHttpAuthorization)
             && IsSetAndTruthy(req.accessToken)) ==> r == FromQuery(req.accessToken.value)
    ensures r.FromQuery? ==>
      !IsSetAndTruthy(req.httpAuthorization) && !IsSetAndTruthy(req.redirectHttpAuthorization)
      && Some(r.token) == req.accessToken
    ensures r.FromHeader? ==> StrTruthy(r.header)
    ensures r.FromQuery? ==> StrTruthy(r.token)
  {
    if IsSetAndTruthy(req.httpAuthorization) then FromHeader(req.httpAuthorization.value)
    else if IsSetAndTruthy(req.redirectHttpAuthorization) then FromHeader(req.redirectHttpAuthorization.value)
    else if IsSetAndTruthy(req.accessToken) then FromQuery(req.accessToken.value)
    else NotFound
  }

  // ---------------------------------------------------------------------
  // sscanf($auth, 'Bearer %s')

  /** C's isspace: space, tab, newline, vertical tab, form feed, carriage return. */
  predicate IsSpace(c: char)
  {
    c == ' ' || 9 <= c as int <= 13
  }

  /** Where a blank in a scanf format stops: the first index from `i` on that
      is not whitespace (or the end). */
  function SpaceEnd(h: string, i: nat): (j: nat)
    requires i <= |h|
    ensures i <= j <= |h|
    ensures forall k :: i <= k < j ==> IsSpace(h[k])
    ensures j == |h| || !IsSpace(h[j])
    decreases |h| - i
  {
    if i < |h| && IsSpace(h[i]) then SpaceEnd(h, i + 1) else i
  }

  /** Where `%s` stops: the first index from `i` on that is whitespace (or the end). */
  function WordEnd(h: string, i: nat): (j: nat)
    requires i <= |h|
    ensures i <= j <= |h|
    ensures forall k :: i <= k < j ==> !IsSpace(h[k])
    ensures j == |h| || IsSpace(h[j])
    decreases |h| - i
  {
    if i < |h| && !IsSpace(h[i]) then WordEnd(h, i + 1) else i
  }

  predicate StartsWithScheme(h: string)
  {
    |h| >= |Scheme| && h[..|Scheme|] == Scheme
  }

  /** The token `list($token) = sscanf($auth, 'Bearer %s')` extracts: None when
      the literal does not match or no word follows it. */
  function ScanBearer(h: string): (r: Option<string>)
    ensures r.None? <==> !StartsWithScheme(h) || forall k :: |Scheme| <= k < |h| ==> IsSpace(h[k])
    ensures r.Some? ==> r.value != [] && forall k :: 0 <= k < |r.value| ==> !IsSpace(r.value[k])
  {
    if StartsWithScheme(h) then
      var start := SpaceEnd(h, |Scheme|);
      var end := WordEnd(h, start);
      if start == end then None else Some(h[start..end])
    else None
  }

  /** `h` is "Bearer", then whitespace up to index `i`, then a word up to index
      `j`, then the end or whitespace. */
  ghost predicate BearerAt(h: string, i: nat, j: nat)
  {
    && StartsWithScheme(h)
    && |Scheme| <= i < j <= |h|
    && (forall k :: |Scheme| <= k < i ==> IsSpace(h[k]))
    && (forall k :: i <= k < j ==> !IsSpace(h[k]))
    && (j == |h| || IsSpace(h[j]))
  }

  lemma {:induction false} SpaceEndAt(h: string, i: nat, j: nat)
    requires i <= j <= |h|
    requires forall k :: i <= k < j ==> IsSpace(h[k])
    requires j == |h| || !IsSpace(h[j])
    ensures SpaceEnd(h, i) == j
    decreases j - i
  {
    if i < j {
      SpaceEndAt(h, i + 1, j);
    }
  }

  lemma {:induction false} WordEndAt(h: string, i: nat, j: nat)
    requires i <= j <= |h|
    requires forall k :: i <= k < j ==> !IsSpace(h[k])
    requires j == |h| || IsSpace(h[j])
    ensures WordEnd(h, i) == j
    decreases j - i
  {
    if i < j {
      WordEndAt(h, i + 1, j);
    }
  }

  /** Every header of the Bearer shape yields its word. */
  lemma ScanBearerComplete(h: string, i: nat, j: nat)
    requires BearerAt(h, i, j)
    ensures ScanBearer(h) == Some(h[i..j])
  {
    SpaceEndAt(h, |Scheme|, i);
    WordEndAt(h, i, j);
  }

  /** Every word ScanBearer yields comes from a header of the Bearer shape. */
  lemma ScanBearerSound(h: string)
    requires ScanBearer(h).Some?
    ensures exists i: nat, j: nat :: BearerAt(h, i, j) && ScanBearer(h).value == h[i..j]
  {
    var i := SpaceEnd(h, |Scheme|);
    var j := WordEnd(h, i);
    assert BearerAt(h, i, j);
  }

  // ---------------------------------------------------------------------
  // class-socialhub-public.php, lines 107-139: the token, or no_auth_token / bad_auth_header

  function ExtractToken(req: Request): (r: Result<string, AuthError>)
    ensures r.Ok? ==> StrTruthy(r.value)
    ensures r.Err? ==> r.error == Reject(NoAuthToken) || r.error == Reject(BadAuthHeader)
  {
    match FindCandidate(req)
    case NotFound => Err(Reject(NoAuthToken))
    case FromQuery(token) => Ok(token)
    case FromHeader(auth) =>
      match ScanBearer(auth)
      case Some(token) => if StrTruthy(token) then Ok(token) else Err(Reject(BadAuthHeader))
      case None => Err(Reject(BadAuthHeader))
  }

  // ---------------------------------------------------------------------
  // class-socialhub-public.php, lines 149-168: the claim checks after a successful decode

  /** The issuer test, read as the strict comparison `=== SOCIALHUB_ISSUER`. */
  predicate IssuerMatches(iss: Value)
  {
    iss == Str(Issuer)
  }

  function CheckClaims(claims: Value): (r: Result<Value, AuthError>)
    ensures r.Ok? <==> IssuerMatches(Prop(claims, "iss")) && PropIsSet(Prop(claims, "user"), "id")
    ensures r.Ok? ==> r.value == claims
    ensures r.Err? ==> r.error.status == Forbidden
    ensures r.Err? ==> (r.error.code == BadIss <==> !IssuerMatches(Prop(claims, "iss")))
    ensures r.Err? && r.error.code != BadIss ==> r.error.code == BadRequest
  {
    if !IssuerMatches(Prop(claims, "iss")) then Err(Reject(BadIss))
    else if !PropIsSet(Prop(claims, "user"), "id") then Err(Reject(BadRequest))
    else Ok(claims)
  }

  /** `$token->iss != SOCIALHUB_ISSUER` as PHP 8 evaluates the loose comparison
      against the non-numeric string "SocialHub": a bool is compared with the
      string's truth value (true), a string byte by byte; null ("" against the
      issuer), numbers (compared as their decimal text), arrays and objects never
      equal it. */
  function IssuerLooselyEquals(iss: Value): (r: bool)
    // A bool meets the string converted to bool; "SocialHub" is truthy.
    ensures iss.Bool? ==> (r <==> iss.b == StrTruthy(Issuer))
    // Two non-numeric strings are compared byte by byte.
    ensures iss.Str? ==> (r <==> iss.s == Issuer)
    ensures !iss.Bool? && !iss.Str? ==> !r
  {
    match iss
    case Bool(b) => b
    case Str(s) => s == Issuer
    case _ => false
  }

  /** The claim checks exactly as written, with the loose comparison. */
  function CheckClaimsAsWritten(claims: Value): (r: Result<Value, AuthError>)
    ensures r.Ok? <==> IssuerLooselyEquals(Prop(claims, "iss")) && PropIsSet(Prop(claims, "user"), "id")
    ensures r.Ok? ==> r.value == claims
    ensures r.Err? ==> r.error.status == Forbidden
    ensures r.Err? ==> (r.error.code == BadIss <==> !IssuerLooselyEquals(Prop(claims, "iss")))
    ensures r.Err? && r.error.code != BadIss ==> r.error.code == BadRequest
  {
    if !IssuerLooselyEquals(Prop(claims, "iss")) then Err(Reject(BadIss))
    else if !PropIsSet(Prop(claims, "user"), "id") then Err(Reject(BadRequest))
    else Ok(claims)
  }

  /** The loose and the strict issuer tests disagree on exactly one claim value: `true`. */
  lemma LooseIssuerDiffersOnlyOnTrue(iss: Value)
    ensures IssuerLooselyEquals(iss) != IssuerMatches(iss) <==> iss == Bool(true)
  {
  }

  /** The two claim checks give different answers exactly when the issuer is `true`. */
  lemma ClaimChecksDifferOnlyOnTrueIssuer(claims: Value)
    ensures CheckClaimsAsWritten(claims) != CheckClaims(claims) <==> Prop(claims, "iss") == Bool(true)
  {
    LooseIssuerDiffersOnlyOnTrue(Prop(claims, "iss"));
  }

  /** A token whose payload is `{"iss": true, "user": {"id": 1}}` passes the
      as-written checks and is refused by the strict ones. */
  lemma TrueIssuerPassesAsWritten()
    ensures var claims := Obj(map["iss" := Bool(true), "user" := Obj(map["id" := Int(1)])]);
      CheckClaimsAsWritten(claims) == Ok(claims) && CheckClaims(claims) == Err(Reject(BadIss))
  {
    var claims := Obj(map["iss" := Bool(true), "user" := Obj(map["id" := Int(1)])]);
    assert Prop(claims, "iss") == Bool(true);
    assert Prop(claims, "user") == Obj(map["id" := Int(1)]);
  }

  // ---------------------------------------------------------------------
  // class-socialhub-public.php, lines 141-177: decode, then check

  /** The `try` block: a decoder exception becomes socialhub_invalid_token. */
  function DecodeAndCheck(token: string, secret: string, decode: Decoder): (r: Result<Value, AuthError>)
    ensures r.Ok? ==> decode(token, secret) == Ok(r.value)
    ensures decode(token, secret).Err? ==> r == Err(Reject(InvalidToken(decode(token, secret).error)))
    ensures decode(token, secret).Ok? ==> r == CheckClaims(decode(token, secret).value)
  {
    match decode(token, secret)
    case Err(message) => Err(Reject(InvalidToken(message)))
    case Ok(claims) => CheckClaims(claims)
  }

  function ValidateToken(req: Request, secret: string, decode: Decoder): (r: Result<Value, AuthError>)
    ensures r.Err? ==> r.error.status == Forbidden
    ensures r.Ok? ==> ExtractToken(req).Ok? && decode(ExtractToken(req).value, secret) == Ok(r.value)
    ensures r.Ok? ==> IssuerMatches(Prop(r.value, "iss")) && PropIsSet(Prop(r.value, "user"), "id")
  {
    match ExtractToken(req)
    case Err(e) => Err(e)
    case Ok(token) => DecodeAndCheck(token, secret, decode)
  }

  /** validate_token exactly as written: the same pipeline, with the loose issuer test. */
  function ValidateTokenAsWritten(req: Request, secret: string, decode: Decoder): (r: Result<Value, AuthError>)
    ensures r.Err? ==> r.error.status == Forbidden
    ensures r.Ok? ==> ExtractToken(req).Ok? && decode(ExtractToken(req).value, secret) == Ok(r.value)
    ensures r.Ok? ==> IssuerLooselyEquals(Prop(r.value, "iss")) && PropIsSet(Prop(r.value, "user"), "id")
  {
    match ExtractToken(req)
    case Err(e) => Err(e)
    case Ok(token) =>
      match decode(token, secret)
      case Err(message) => Err(Reject(InvalidToken(message)))
      case Ok(claims) => CheckClaimsAsWritten(claims)
  }

  /** The code as written and the corrected check validate every request alike,
      except one whose token decodes to claims with issuer `true`. */
  lemma AsWrittenDiffersOnlyOnTrueIssuer(req: Request, secret: string, decode: Decoder)
    ensures ValidateTokenAsWritten(req, secret, decode) != ValidateToken(req, secret, decode) <==>
      && ExtractToken(req).Ok?
      && decode(ExtractToken(req).value, secret).Ok?
      && Prop(decode(ExtractToken(req).value, secret).value, "iss") == Bool(true)
  {
    if ExtractToken(req).Ok? && decode(ExtractToken(req).value, secret).Ok? {
      ClaimChecksDifferOnlyOnTrueIssuer(decode(ExtractToken(req).value, secret).value);
    }
  }

  // ---------------------------------------------------------------------
  // Properties of validate_token

  /** With no truthy token source, the answer is no_auth_token, whatever the decoder. */
  lemma NoTokenAnywhere(req: Request, secret: string, decode: Decoder)
    requires !IsSetAndTruthy(req.httpAuthorization)
    requires !IsSetAndTruthy(req.redirectHttpAuthorization)
    requires !IsSetAndTruthy(req.accessToken)
    ensures ValidateToken(req, secret, decode) == Err(Reject(NoAuthToken))
  {
  }

  /** A truthy HTTP_AUTHORIZATION decides the outcome alone: the redirected header
      and the query parameter are never consulted. */
  lemma AuthorizationHeaderShadows(req: Request, other: Request, secret: string, decode: Decoder)
    requires IsSetAndTruthy(req.httpAuthorization)
    requires other.httpAuthorization == req.httpAuthorization
    ensures ValidateToken(req, secret, decode) == ValidateToken(other, secret, decode)
  {
  }

  /** Failing that, a truthy REDIRECT_HTTP_AUTHORIZATION decides it, never the query parameter. */
  lemma RedirectHeaderShadowsQuery(req: Request, other: Request, secret: string, decode: Decoder)
    requires !IsSetAndTruthy(req.httpAuthorization) && !IsSetAndTruthy(other.httpAuthorization)
    requires IsSetAndTruthy(req.redirectHttpAuthorization)
    requires other.redirectHttpAuthorization == req.redirectHttpAuthorization
    ensures ValidateToken(req, secret, decode) == ValidateToken(other, secret, decode)
  {
  }

  /** A header of the Bearer shape whose word is truthy: that word, and nothing
      else, is handed to the decoder. */
  lemma HeaderTokenIsDecoded(req: Request, secret: string, decode: Decoder, i: nat, j: nat)
    requires IsSetAndTruthy(req.httpAuthorization)
    requires BearerAt(req.httpAuthorization.value, i, j) && StrTruthy(req.httpAuthorization.value[i..j])
    ensures ValidateToken(req, secret, decode) == DecodeAndCheck(req.httpAuthorization.value[i..j], secret, decode)
  {
    ScanBearerComplete(req.httpAuthorization.value, i, j);
  }

  /** With a falsy HTTP_AUTHORIZATION, the Bearer word of a truthy
      REDIRECT_HTTP_AUTHORIZATION is what gets decoded. */
  lemma RedirectHeaderTokenIsDecoded(req: Request, secret: string, decode: Decoder, i: nat, j: nat)
    requires !IsSetAndTruthy(req.httpAuthorization) && IsSetAndTruthy(req.redirectHttpAuthorization)
    requires BearerAt(req.redirectHttpAuthorization.value, i, j)
    requires StrTruthy(req.redirectHttpAuthorization.value[i..j])
    ensures ValidateToken(req, secret, decode)
         == DecodeAndCheck(req.redirectHttpAuthorization.value[i..j], secret, decode)
  {
    ScanBearerComplete(req.redirectHttpAuthorization.value, i, j);
  }

  /** Only when both headers are falsy is the query parameter used, verbatim. */
  lemma QueryTokenUsedVerbatim(req: Request, secret: string, decode: Decoder)
    requires !IsSetAndTruthy(req.httpAuthorization) && !IsSetAndTruthy(req.redirectHttpAuthorization)
    requires IsSetAndTruthy(req.accessToken)
    ensures ValidateToken(req, secret, decode) == DecodeAndCheck(req.accessToken.value, secret, decode)
  {
  }

  /** A truthy header that does not yield a truthy Bearer word is
      socialhub_bad_auth_header: the query parameter is not tried and the
      decoder is not called (the result is the same for every decoder). */
  lemma MalformedHeaderHasNoFallback(req: Request, secret: string, decode: Decoder)
    requires IsSetAndTruthy(req.httpAuthorization) || IsSetAndTruthy(req.redirectHttpAuthorization)
    requires var h := if IsSetAndTruthy(req.httpAuthorization) then req.httpAuthorization.value
                      else req.redirectHttpAuthorization.value;
             ScanBearer(h).None? || !StrTruthy(ScanBearer(h).value)
    ensures ValidateToken(req, secret, decode) == Err(Reject(BadAuthHeader))
  {
  }
}
