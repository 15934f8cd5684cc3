# SocialHub request authentication, modelled in Dafny

SocialHub is a WordPress plugin. A site administrator mints a JSON Web Token (RFC 7519, signed with HS256 as in section 3.2 of RFC 7518) whose claims name the plugin as issuer and carry the administrator's user id. A partner service then presents that token on REST API calls. The class `SocialHub_Public` (`public/class-socialhub-public.php`) turns such a token into the current WordPress user. It has three parts, and the model follows them.

- **`validate_token`** (`token_validation.dfy`, module `TokenValidation`) is a pure function of the request inputs and of the JWT decoder, returning the claims or a tagged 403 error. It looks for a candidate in a fixed order:
  - the `HTTP_AUTHORIZATION` header, if it is truthy in PHP's sense (`""` and `"0"` are false);
  - then `REDIRECT_HTTP_AUTHORIZATION`;
  - then the `access_token` query parameter.

  A header is parsed as `sscanf($auth, 'Bearer %s')`. This is modelled as PHP's scanf does it: the literal `Bearer`, any run of whitespace (possibly empty), then the longest run of non-whitespace. A query token is used verbatim. The token is then decoded. A decoder exception becomes `socialhub_invalid_token`. After a successful decode, the issuer is checked first (`socialhub_bad_iss`), then `isset($token->user->id)` (`socialhub_bad_request`).
- **The two-stage pipeline** (`request_auth.dfy`, module `RequestAuth`). `ResolveUser` specifies `determine_current_user` as a function. `SocialHubPublic` is the plugin object, with its mutable `jwtError` field (`jwt_error`):
  - `DetermineCurrentUser` stores any failure other than "no token" in that field;
  - `RestPreDispatch` replays the stored failure, or otherwise passes its input through.

  The REST test is `!strpos(REQUEST_URI, rest_get_url_prefix())`, modelled by `StrPos`, which returns the first occurrence. A prefix found at index 0 therefore counts as "not REST". `HandleRequest` runs one request through a fresh object, the way the plugin loader registers one instance on both hooks.
- **The query-shaping filters** (`query_filters.dfy`, module `QueryFilters`) are functions on PHP arrays, modelled as maps:
  - `rest_post_query` and `rest_comment_query` assign `$args['date_query'][0]['column']`, including PHP's autovivification of missing, null or false slots. A slot holding `true`, a number, a string or an object makes PHP throw, and that case is modelled as `None`.
  - The two `*_collection_params` filters declare the `date_query_column` schema: 4 post columns and 2 comment columns.

PHP values are one datatype, `PhpValues.Value`. It covers null, bool, int, string, arrays as maps, and objects (the `stdClass` values that `json_decode` builds). Reading a missing property yields null. The JWT library's `JWT::decode($token, AUTH_KEY, ['HS256'])` is a function parameter `decode: Decoder`, and the secret `AUTH_KEY` is a parameter `secret`. The issuer is `SOCIALHUB_ISSUER = "SocialHub"` (`socialhub.php:43`).

Behaviour of the code worth knowing:
- The header does not need a space after `Bearer` (`BearerXYZ` yields `XYZ`).
- A word `0` is rejected as a malformed header.
- The user id only has to be set and non-null, not non-empty.
- Malformed tokens, bad signatures and disallowed algorithms are all one code, `socialhub_invalid_token`, carrying the library's message.
- A REST prefix at index 0 of the URI disables authentication.

## Model

| member | source | states |
|---|---|---|
| `TokenValidation.SpaceEnd` | public/class-socialhub-public.php:129 | The blank in `'Bearer %s'` skips exactly the run of whitespace: every character it passes is whitespace, and it stops at the end or at a non-space. |
| `TokenValidation.WordEnd` | public/class-socialhub-public.php:129 | `%s` reads exactly the longest run without whitespace: every character it passes is non-space, and it stops at the end or at whitespace. |
| `TokenValidation.ScanBearer` | public/class-socialhub-public.php:129 | `sscanf` yields no token exactly when the header does not start with `Bearer` or has only whitespace after it; a token it yields is non-empty and whitespace-free. |
| `TokenValidation.ScanBearerComplete` | public/class-socialhub-public.php:129 | Every header of the shape `Bearer`, then whitespace (possibly none), then a word, then the end or whitespace, yields exactly that word. |
| `TokenValidation.ScanBearerSound` | public/class-socialhub-public.php:129 | Every token scanned from a header is the word of a header of exactly that shape. |
| `TokenValidation.FindCandidate` | public/class-socialhub-public.php:107-115 | The first truthy source in the order `HTTP_AUTHORIZATION`, `REDIRECT_HTTP_AUTHORIZATION`, `access_token` is taken; the query token only when both headers are falsy, and as it is; nothing is found exactly when all three are falsy. |
| `TokenValidation.ExtractToken` | public/class-socialhub-public.php:107-139 | The token handed on is truthy; the only failures before decoding are `socialhub_no_auth_token` and `socialhub_bad_auth_header`, both with status 403. |
| `TokenValidation.CheckClaims` | public/class-socialhub-public.php:149-168 | The claims pass exactly when `iss` is `"SocialHub"` and `user.id` is set, and they are returned unchanged. The issuer is checked first: `socialhub_bad_iss` exactly when the issuer is wrong, otherwise `socialhub_bad_request`. Status is 403, and nothing else (no `exp`, no `iat`) is checked. |
| `TokenValidation.CheckClaimsAsWritten` | public/class-socialhub-public.php:149-168 | The same checks with PHP's loose `!=` against the issuer: the claims pass exactly when the issuer loosely equals `"SocialHub"` and `user.id` is set, and are returned unchanged. `socialhub_bad_iss` exactly when the loose test fails, otherwise `socialhub_bad_request`; status 403. |
| `TokenValidation.LooseIssuerDiffersOnlyOnTrue` | public/class-socialhub-public.php:149 | The loose and the strict issuer tests disagree on exactly one value, boolean `true`. |
| `TokenValidation.IssuerLooselyEquals` | public/class-socialhub-public.php:149 | PHP 8's loose `==` against the non-numeric string `"SocialHub"`: a bool is compared with the string's truth value, a string byte by byte, and null, numbers, arrays and objects never equal it. |
| `TokenValidation.ClaimChecksDifferOnlyOnTrueIssuer` | public/class-socialhub-public.php:149-168 | The as-written and the corrected claim checks answer differently exactly when the issuer claim is `true`. |
| `TokenValidation.TrueIssuerPassesAsWritten` | public/class-socialhub-public.php:149-168 | Claims `{"iss": true, "user": {"id": 1}}` pass the as-written checks and are refused with `socialhub_bad_iss` by the strict ones. |
| `TokenValidation.DecodeAndCheck` | public/class-socialhub-public.php:141-177 | A decoder exception becomes `socialhub_invalid_token` carrying its message. A successful decode goes to the claim checks. A success returns exactly what the decoder produced. |
| `TokenValidation.ValidateToken` | public/class-socialhub-public.php:105-178 | Every error has status 403. A success is exactly the decoder's output on the extracted token, and it has the plugin's issuer and a set user id. |
| `TokenValidation.ValidateTokenAsWritten` | public/class-socialhub-public.php:105-178 | `validate_token` as written: every error has status 403; a success is the decoder's output on the extracted token, with a loosely matching issuer and a set user id. |
| `TokenValidation.AsWrittenDiffersOnlyOnTrueIssuer` | public/class-socialhub-public.php:149 | Validation as written and corrected give different results exactly when the extracted token decodes to claims whose issuer is `true`. |
| `TokenValidation.NoTokenAnywhere` | public/class-socialhub-public.php:114-125 | With all three sources falsy the result is `socialhub_no_auth_token`, whatever the decoder. |
| `TokenValidation.AuthorizationHeaderShadows` | public/class-socialhub-public.php:107-111 | A truthy `HTTP_AUTHORIZATION` alone decides the result; the redirected header and `access_token` are never consulted. |
| `TokenValidation.RedirectHeaderShadowsQuery` | public/class-socialhub-public.php:109-115 | When the first header is falsy, a truthy `REDIRECT_HTTP_AUTHORIZATION` decides the result; `access_token` is not consulted. |
| `TokenValidation.HeaderTokenIsDecoded` | public/class-socialhub-public.php:127-147 | For a truthy Authorization header of the Bearer shape, the word after `Bearer` is what gets decoded, even when a different query token is present. |
| `TokenValidation.RedirectHeaderTokenIsDecoded` | public/class-socialhub-public.php:109-110 | When `HTTP_AUTHORIZATION` is falsy, the word after `Bearer` in a truthy `REDIRECT_HTTP_AUTHORIZATION` of the Bearer shape is what gets decoded. |
| `TokenValidation.QueryTokenUsedVerbatim` | public/class-socialhub-public.php:114-126 | When both headers are falsy, a truthy `access_token` is decoded as it is, without Bearer parsing. |
| `TokenValidation.MalformedHeaderHasNoFallback` | public/class-socialhub-public.php:127-138 | A truthy header whose Bearer word is missing or falsy gives `socialhub_bad_auth_header` for every decoder and every query parameter: there is no fallback and no decode. |
| `RequestAuth.StrPos` | public/class-socialhub-public.php:77 | `strpos` returns an index where the needle occurs and before which it does not occur, or none when it occurs nowhere. |
| `RequestAuth.IsRestRequest` | public/class-socialhub-public.php:77-78 | `!strpos` lets a request through only when the prefix is non-empty, does not occur at index 0 and occurs later; an unset URI never passes. |
| `RequestAuth.RestRequestCharacterized` | public/class-socialhub-public.php:76-80 | A request is treated as REST exactly when the prefix does not occur at index 0 and occurs at some later index. |
| `RequestAuth.ResolveUser` | public/class-socialhub-public.php:74-98 | A truthy user and a non-REST request are returned unchanged with nothing stored. The user changes only to `user.id` of a fully validated token. A failure is handed on exactly when a REST request without a user fails for a reason other than "no token". That failure is the validation error itself, and the user is then unchanged. |
| `RequestAuth.ResolveUserAsWritten` | public/class-socialhub-public.php:74-98 | `determine_current_user` with the loose issuer test: the same as the corrected stage whenever validation agrees; a truthy user or a non-REST request is returned unchanged; an anonymous REST request whose token passes validation as written resolves to that token's `user.id` and hands nothing on; the user changes only then. A failure other than "no token" is handed on exactly for an anonymous REST request, it is the as-written validation error, and the user is then unchanged. |
| `RequestAuth.TrueIssuerLogsInAsWritten` | public/class-socialhub-public.php:84-97 | An anonymous REST request carrying a correctly signed token with payload `{"iss": true, "user": {"id": 1}}` resolves to user 1 as written, and with the corrected test stays anonymous with `socialhub_bad_iss` handed on. |
| `RequestAuth.ValidTokenResolvesUser` | public/class-socialhub-public.php:84-97 | A REST request without a user and with a valid token resolves to the token's (set) user id and stores nothing. |
| `RequestAuth.NoTokenIsSilent` | public/class-socialhub-public.php:84-93 | With no token anywhere the user is returned unchanged and nothing is stored. |
| `RequestAuth.ForeignIssuerIsDeferred` | public/class-socialhub-public.php:84-90 | A well-formed token from issuer `OtherSystem` on `/wp-json/...` leaves the anonymous user unchanged and hands on `socialhub_bad_iss` with status 403, even though an `access_token` is also present. |
| `RequestAuth.SocialHubPublic.constructor` | public/class-socialhub-public.php:50 | `jwt_error` starts out null. |
| `RequestAuth.SocialHubPublic.DetermineCurrentUser` | public/class-socialhub-public.php:74-98 | Returns `ResolveUser`'s user. It stores `ResolveUser`'s failure in `jwt_error` when there is one and otherwise leaves the field as it was, so a stored error is never cleared. The stored error is always a 403 and never "no token". |
| `RequestAuth.SocialHubPublic.RestPreDispatch` | public/class-socialhub-public.php:186-191 | Returns exactly the stored error when there is one (status 403, never "no token"), and otherwise its input unchanged. |
| `RequestAuth.HandleRequest` | includes/class-socialhub.php:156-158 | On one plugin object, the pre-dispatch stage halts exactly when a REST request without a user failed validation for a reason other than "no token". It then halts with that very 403 error and the user is unchanged. Otherwise the request goes through untouched. |
| `QueryFilters.WritableArray` | public/class-socialhub-public.php:205 | PHP's autovivification in a nested assignment: an unset slot, null or `false` becomes an empty array, an array is written into as it is, and `true`, a number, a string or an object makes PHP throw. |
| `QueryFilters.AssignDateQueryColumn` | public/class-socialhub-public.php:205 | The assignment fails exactly when `date_query` or its clause 0 holds `true`, a number, a string or an object. Otherwise reading the path back gives the value written. Every other argument, every other clause and every other field of clause 0 is unchanged. |
| `QueryFilters.RestPostQuery` | public/class-socialhub-public.php:200-208 | `args` are returned unchanged unless `before` or `after` is set and `date_query_column` is set. In that case the result is exactly the assignment of the request's value to `date_query[0].column` (no enum check): it fails only where PHP throws, and otherwise only that field changes. |
| `QueryFilters.RestCommentQuery` | public/class-socialhub-public.php:232-240 | The same as for posts, for the comment query arguments. |
| `QueryFilters.DateQueryFilterIdempotent` | public/class-socialhub-public.php:200-208 | Applying the date-column filter to its own output changes nothing. |
| `QueryFilters.RestPostCollectionParams` | public/class-socialhub-public.php:216-223 | Only the `date_query_column` key is set, and all other parameters are kept. Its string schema admits exactly `post_date`, `post_date_gmt`, `post_modified` and `post_modified_gmt`, and it carries the description. |
| `QueryFilters.RestCommentCollectionParams` | public/class-socialhub-public.php:248-255 | Only the `date_query_column` key is set, and all other parameters are kept. Its string schema admits exactly `comment_date` and `comment_date_gmt`. |
| `QueryFilters.CollectionParamsIdempotent` | public/class-socialhub-public.php:216-255 | Declaring the parameter twice is the same as declaring it once, for posts and for comments. |

## Left out

- The JWT library (`JWT::decode`, `JWT::encode`): base64url, JSON parsing, HMAC-SHA-256 signatures, the algorithm whitelist and the library's own `exp`/`nbf`/`iat` checks are foreign code. The decoder is a parameter returning the payload or the exception message.
- Token issuance (`generate_token` in `admin/class-socialhub-admin.php`) and the admin page only gather WordPress data and call the JWT encoder. They are not part of this model; the model needs only the `iss` and `user.id` claims.
- Hook registration (`includes/class-socialhub.php`), i18n and the bootstrap file are wiring. Only the issuer constant is used, and `HandleRequest` stands for the two registrations that share one object.
- Error messages: the translated texts of `__()` are not modelled. Only the code, the status and, for `socialhub_invalid_token`, the decoder's message are. The collection-params description is a parameter.
- PHP warnings and deprecation notices (an undefined property or index, null passed to `strpos`) are not modelled, only the values PHP goes on with.
- Floats in claims are not modelled. Loose comparison follows PHP 8, where an integer never equals the string `"SocialHub"`.
- NUL bytes: `sscanf` stops at a NUL byte in a header, but `ScanBearer` reads a NUL as an ordinary word character (`"Bearer a\0b"` yields `a\0b` where PHP yields `a`), so headers containing NUL are not modelled faithfully.
- `access_token` given as an array (`access_token[]=...`) is not modelled. Query parameters are strings.
- PHP array key order is not modelled: arrays are maps.
- WordPress's REST request object is modelled as one map of parameters, and its lookup order across URL, body and defaults is left out. Its schema validation of the enum and its query building are host behaviour.
- `rest_pre_dispatch` receives WordPress's pending dispatch result as its first argument. It is modelled as a value of any type that is passed back unchanged.
- `ValidateToken` and `CheckClaims` compare the issuer strictly (see Findings), and so do `ResolveUser`, `SocialHubPublic` and `HandleRequest`, which build on them. The loose comparison as written is modelled by `CheckClaimsAsWritten`, `ValidateTokenAsWritten` and `ResolveUserAsWritten`.

## Findings

| source | as written | input that shows it | evidently intended | confidence | as-written member | corrected member |
|---|---|---|---|---|---|---|
| public/class-socialhub-public.php:149 | `$token->iss != SOCIALHUB_ISSUER` is PHP's loose comparison, so a boolean issuer is compared by its truth value with the non-empty string | a token signed with the site key whose payload is `{"iss": true, "user": {"id": 1}}` passes the issuer check and logs in user 1 (before PHP 8, `"iss": 0` passes too) | only the issuer string `"SocialHub"` passes (`!==`) | medium, not executed; needs a token signed with the site's key | `TokenValidation.CheckClaimsAsWritten`, `TokenValidation.TrueIssuerPassesAsWritten`, `RequestAuth.ResolveUserAsWritten`, `RequestAuth.TrueIssuerLogsInAsWritten` | `TokenValidation.CheckClaims`, `RequestAuth.ResolveUser` |
