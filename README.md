# xcsrf-middleware in Dafny

A model of the double-submit-cookie CSRF gate of the xcsrf-middleware
package for Slim/PSR-15 applications, with proofs of what it promises.

The gate compares two values:

- the anti-CSRF value the client sends as a cookie, a header or a body parameter;
- a random claim inside a token payload that earlier middleware (a JWT or Branca decoder) left on the request as an attribute.

A request with a state-changing method (POST, PUT, PATCH, DELETE) on a
protected path that is not passed through is let through only when the
claim is non-empty and strictly equal to the anti-CSRF value. Any other
such request is answered with 401, which the optional error hook may
replace. There are two exceptions in the newer gate: a body parameter
holding an array or an object, and a payload the MessagePack unpacker
rejects. Each raises an error that escapes the gate
(`XsrfProperties.ErrorEscapesIff`).

Two gates are modelled:

- **`src/XsrfProtection.php`**, the PSR-15 middleware: modules `Xsrf` and `XsrfProperties`.
- **`xsrfProtection.php`**, the older double-pass middleware: modules `LegacyXsrf` and `LegacyProperties`. It has no method gate. It takes the value only from the cookie's string form, split on "=". It answers the incoming response with status 401.

Shared modules:

- `Php`: the PHP semantics the gates rely on. This covers `empty()`, the `(array)` cast, `?string` return coercion and integer keys as decimal strings.
- `Paths`: request-path normalisation and route matching.
- `Http`: the request and response snapshot.

Each PHP class becomes a Dafny `class`. Its option array is a field of
type `Options`, and the new gate's last error message is a second field.
Its methods change those fields as the PHP does.

Each decision is also stated as a pure function:

- `Xsrf.VerifyPass`: one verification pass.
- `Xsrf.Decide`: the whole decision, including the new options and message.
- `LegacyXsrf.Decide`: the older gate's decision.

The methods are proved to behave as those functions say. Every listed
property is proved about the functions.

Three things from the outside world are passed in as values:

- The JSON decoder and the MessagePack unpacker (`Xsrf.Codecs`).
- The error hook (`Xsrf.ErrorHook`).
- The string form the cookie library gives a cookie (`LegacyXsrf.CookieForm`).

Four behaviours of the code worth knowing; the model keeps them:

- **Routes are not normalised.** Only trailing slashes are trimmed from a route; runs of slashes inside it are kept. The request path, though, is collapsed, so a route that still holds "//" after its trailing slashes are trimmed matches no request (`Paths.DoubleSlashRouteNeverMatches`).
- **Options are not fixed after construction.** Once a carrier is found, a token attribute is written into the `payload` option. Because of that cache, every later request is checked against the first request's payload (`XsrfProperties.CachedPayloadServesLaterRequests`).
- **Some errors escape the gate.** A body-parameter carrier that is an array or an object makes the `?string` return of `csrfExist` raise a TypeError. A MessagePack payload the unpacker rejects raises too. Neither is turned into a 401.
- **The JSON fallback reads the stored option.** When the value handed to `transformPayload` is not a JSON string, the fallback casts the stored `payload` option, not that value.

## Model

| member | source | states |
|---|---|---|
| `Php.EmptyString` | src/XsrfProtection.php:243 | A string is PHP-empty exactly when it is "" or "0" |
| `Php.Empty` | src/XsrfProtection.php:243 | `empty()` holds of exactly six values: null, false, 0, "", "0" and the empty array; never of an object |
| `Php.ToArray` | src/XsrfProtection.php:354-357 | The `(array)` cast is empty exactly for null and for an empty array or object, and a scalar ends up alone under key "0" |
| `Php.ToArrayIdempotent` | src/XsrfProtection.php:354-357 | Casting the result of the cast again, as an array or as an object, gives it back unchanged |
| `Php.CoerceToString` | src/XsrfProtection.php:181-203 | The `?string` return succeeds exactly for scalars. A string comes back as it is, an integer as decimal text that parses back to it, true as "1" and false as "". An array or an object raises an error |
| `Php.DecimalRoundTrip` | src/XsrfProtection.php:181-203 | The decimal text PHP writes for an integer parses back to that integer |
| `Paths.CollapseSlashes` | src/XsrfProtection.php:77 | The result has no two consecutive slashes, keeps every other character in order, is no longer than the input, and keeps the first character |
| `Paths.CollapseKeepsClean` | src/XsrfProtection.php:77 | A string without runs of slashes is left unchanged |
| `Paths.CollapseRun` | src/XsrfProtection.php:77 | Two slashes in a row collapse exactly as one slash does, wherever they stand. With `CollapseKeepsClean` this fixes the function: every run of slashes becomes exactly one slash |
| `Paths.CollapseIdempotent` | src/XsrfProtection.php:77 | Collapsing twice equals collapsing once |
| `Paths.CollapseKeepsCleanPrefix` | src/XsrfProtection.php:76-77 | A prefix without runs of slashes survives collapsing, whatever follows it |
| `Paths.Normalize` | src/XsrfProtection.php:76-77 | The matched path starts with "/", has no runs of slashes, and keeps every non-slash character of the request path |
| `Paths.NormalizeIdempotent` | src/XsrfProtection.php:76-77 | Normalising a normalised path changes nothing |
| `Paths.NormalizeRun` | src/XsrfProtection.php:76-77 | A doubled slash anywhere in the request path is normalised as a single one |
| `Paths.NormalizeKeepsClean` | src/XsrfProtection.php:76-77 | A request path without runs of slashes only gains a leading "/", unless it already starts with one |
| `Paths.RTrimSlash` | src/XsrfProtection.php:88 | The trimmed route is a prefix of the route, does not end in "/", and only slashes were removed |
| `Paths.RouteMatchesIff` | src/XsrfProtection.php:97-98 | A route matches exactly when its trimmed form is a prefix of the path and the path either ends there or continues with "/" |
| `Paths.SlashRouteMatchesAll` | src/XsrfProtection.php:96-98 | A route made only of slashes, the default "/" among them, matches every normalised path |
| `Paths.TrailingSlashIrrelevant` | src/XsrfProtection.php:97-98 | Adding a trailing slash to a route never changes what it matches |
| `Paths.SubtreeMatches` | src/XsrfProtection.php:88-89 | A well-formed route matches the path it names and every path below it |
| `Paths.DoubleSlashRouteNeverMatches` | src/XsrfProtection.php:97-98 | A route that keeps "//" after trimming matches no normalised path |
| `Paths.SiblingDoesNotMatch` | src/XsrfProtection.php:98 | A path that only extends the route's last segment (route "/api" against "/apix") does not match |
| `Paths.AsList` | src/XsrfProtection.php:96 | `(array)` of a route option is empty exactly for null or an empty list. It holds exactly the route given, or the routes of the list |
| `Paths.SingleRouteOption` | src/XsrfProtection.php:96-98 | A route option that is one string matches exactly what that route matches; a null option matches nothing |
| `Paths.FindMatch` | src/XsrfProtection.php:87-93 | The loop over routes finds a match exactly when some route of the list matches the path |
| `Xsrf.NeedsCheck` | src/XsrfProtection.php:54 | A method is checked exactly when it is POST, PUT, PATCH or DELETE, compared case-sensitively |
| `Xsrf.FindCarrier` | src/XsrfProtection.php:181-209 | Cookie first, then the first header value, then a non-null body parameter. None exactly when all three are absent. An error exactly when the body parameter is an array or an object |
| `Xsrf.TransformPayload` | src/XsrfProtection.php:343-358 | Without MessagePack the decoding always returns. With MessagePack it returns exactly when the unpacker does |
| `Xsrf.ErrorResponse` | src/XsrfProtection.php:147-156 | The 401 is replaced only by a response the hook returns, and always when it returns one |
| `Xsrf.VerifyPass` | src/XsrfProtection.php:99-133 | A pass changes at most the payload option, and only by caching the token attribute when none was stored. A denial keeps its message as the last message and answers the 401 through the hook. Any other outcome leaves the message unchanged |
| `Xsrf.Decide` | src/XsrfProtection.php:74-138 | Handling a request changes at most the payload option, and only by caching the token attribute when none was stored |
| `Xsrf.DecideOnChecked` | src/XsrfProtection.php:96-137 | For a checked request that no passthrough route covers, the decision is the verification pass on a protected path and downstream otherwise |
| `Xsrf.PassIsStable` | src/XsrfProtection.php:96-135 | Rerunning a granted pass on the state it left gives the same result, so a second matching route changes nothing |
| `Xsrf.XsrfProtection.constructor` | src/XsrfProtection.php:33-42 | Each supplied option replaces its default and the others keep theirs. A supplied message becomes the last message |
| `Xsrf.XsrfProtection.Process` | src/XsrfProtection.php:74-138 | The outcome, the new options and the new last message are exactly those of `Xsrf.Decide` on the old state |
| `Xsrf.XsrfProtection.CheckPaths` | src/XsrfProtection.php:96-137 | The loop over protected routes leaves exactly the pass's outcome and state when some route matches, and goes downstream with nothing changed otherwise |
| `Xsrf.XsrfProtection.Verify` | src/XsrfProtection.php:99-133 | The checks of one matching route leave the options and message of `Xsrf.VerifyPass`. They report a result exactly when the pass does not let the request through |
| `Xsrf.XsrfProtection.CsrfExist` | src/XsrfProtection.php:181-209 | Returns the carrier lookup. Sets the message "Anti csrf not found" exactly when no carrier exists |
| `Xsrf.XsrfProtection.FetchToken` | src/XsrfProtection.php:217-228 | Succeeds exactly when the token attribute is set. On success it stores the attribute as the payload; otherwise it sets the message "Payload not found in request attribute" |
| `Xsrf.XsrfProtection.FetchClaim` | src/XsrfProtection.php:235-250 | True exactly when the decoded payload holds a non-empty claim. The message says which check failed |
| `Xsrf.XsrfProtection.ValidateToken` | src/XsrfProtection.php:258-269 | True exactly when the decoded claim is the string given. On a mismatch it sets the mismatch message |
| `Xsrf.XsrfProtection.SetPath` | src/XsrfProtection.php:277-281 | Only the path option changes, and it reads back as `(array)` of the value set |
| `Xsrf.XsrfProtection.GetPath` | src/XsrfProtection.php:288-291 | Returns `(array)` of the path option |
| `Xsrf.XsrfProtection.GetPassthrough` | src/XsrfProtection.php:310-313 | Returns `(array)` of the passthrough option |
| `Xsrf.XsrfProtection.SetPassthrough` | src/XsrfProtection.php:299-303 | Only the passthrough option changes, and it reads back as `(array)` of the value set |
| `Xsrf.XsrfProtection.GetPayload` | src/XsrfProtection.php:332-335 | Without MessagePack the stored payload always decodes. Null, an array or an object reads back as its `(array)` cast |
| `Xsrf.XsrfProtection.SetPayload` | src/XsrfProtection.php:321-325 | Only the payload option changes. Without MessagePack, an array or object payload reads back as its entries |
| `Xsrf.XsrfProtection.GetAnticsrf` | src/XsrfProtection.php:377-380 | Returns the carrier name option |
| `Xsrf.XsrfProtection.SetAnticsrf` | src/XsrfProtection.php:366-370 | Only the carrier name changes, and it reads back |
| `Xsrf.XsrfProtection.GetToken` | src/XsrfProtection.php:399-402 | Returns the token attribute name option |
| `Xsrf.XsrfProtection.SetToken` | src/XsrfProtection.php:388-392 | Only the token attribute name changes, and it reads back |
| `Xsrf.XsrfProtection.GetClaim` | src/XsrfProtection.php:421-424 | Returns the claim name option |
| `Xsrf.XsrfProtection.SetClaim` | src/XsrfProtection.php:410-414 | Only the claim name changes, and it reads back |
| `Xsrf.XsrfProtection.GetMessage` | src/XsrfProtection.php:481-484 | Returns the last message |
| `Xsrf.XsrfProtection.SetMessage` | src/XsrfProtection.php:470-474 | The last message becomes the value set, and it reads back |
| `Xsrf.XsrfProtection.GetError` | src/XsrfProtection.php:503-506 | Returns the error hook option |
| `Xsrf.XsrfProtection.SetError` | src/XsrfProtection.php:492-496 | Only the error hook changes, and it reads back |
| `Xsrf.XsrfProtection.GetMsgpack` | src/XsrfProtection.php:525-528 | Returns the MessagePack flag |
| `Xsrf.XsrfProtection.SetMsgpack` | src/XsrfProtection.php:514-518 | Only the MessagePack flag changes, and it reads back |
| `XsrfProperties.CheckedMethodsExact` | src/XsrfProtection.php:54 | Exactly POST, PUT, PATCH and DELETE are checked, case-sensitively. GET, HEAD, OPTIONS and "post" are not |
| `XsrfProperties.SafeMethodGoesDownstream` | src/XsrfProtection.php:80-84 | A safe method goes downstream, and options and message are unchanged |
| `XsrfProperties.PassthroughGoesDownstream` | src/XsrfProtection.php:86-93 | A matching passthrough route sends the request downstream, even when a protected route matches too |
| `XsrfProperties.PassthroughCoversSubtree` | src/XsrfProtection.php:87-89 | A passthrough route exempts the path it names and everything below it |
| `XsrfProperties.DefaultPathProtectsEverything` | src/XsrfProtection.php:34 | With the default path "/", every checked request not passed through gets the verification pass |
| `XsrfProperties.OnlyProtectedPathsChecked` | src/XsrfProtection.php:74-138 | A request is denied or changes the gate's state only when its method is checked, no passthrough route covers it and a protected route matches it |
| `XsrfProperties.UnprotectedPathGoesDownstream` | src/XsrfProtection.php:96-137 | A path no protected route matches goes downstream, with nothing changed |
| `XsrfProperties.MissingCarrierDeniedFirst` | src/XsrfProtection.php:99-105 | With no carrier the denial is "Anti csrf not found", before anything is cached or any claim is read |
| `XsrfProperties.StoredPayloadIgnoresAttributes` | src/XsrfProtection.php:107-117 | With a stored payload, the request's attributes make no difference |
| `XsrfProperties.MissingAttributeDenied` | src/XsrfProtection.php:108-116 | With no stored payload and the token attribute absent or null, the denial is "Payload not found in request attribute" |
| `XsrfProperties.AttributeIsCached` | src/XsrfProtection.php:226 | Once a carrier is found, the resolved payload is stored in the options, whether or not the pass grants |
| `XsrfProperties.CachedPayloadServesLaterRequests` | src/XsrfProtection.php:107-117 | After a request that cached its token, a later request is decided the same whatever attributes it carries |
| `XsrfProperties.ClaimMissingDenied` | src/XsrfProtection.php:238-242 | A decoded payload without the claim key gives "Claim not found in token" |
| `XsrfProperties.ClaimEmptyDenied` | src/XsrfProtection.php:243-247 | A PHP-empty claim gives "No random key find in claim" |
| `XsrfProperties.MismatchDenied` | src/XsrfProtection.php:262-266 | A non-empty claim that is not strictly the carrier string gives the mismatch message |
| `XsrfProperties.GrantIff` | src/XsrfProtection.php:99-133 | A pass grants exactly when four things hold: a carrier was found whose value is neither "" nor "0"; a payload resolves; it decodes; and its claim is exactly that string |
| `XsrfProperties.DecideGrantIff` | src/XsrfProtection.php:74-138 | On a protected, non-passthrough path with a checked method, the gate grants exactly under the same reference condition |
| `XsrfProperties.EmptyCarrierNeverGranted` | src/XsrfProtection.php:243-262 | A carrier value "" or "0" is never accepted |
| `XsrfProperties.IntegerClaimNeverGranted` | src/XsrfProtection.php:262 | An integer claim is never accepted, even one whose digits equal the carrier |
| `XsrfProperties.DenialShape` | src/XsrfProtection.php:99-133 | Every denial carries one of the five messages, keeps it as the last message, and answers the 401 through the hook. Without a hook the plain 401 is sent |
| `XsrfProperties.HookWithoutResponseKeeps401` | src/XsrfProtection.php:149-155 | A hook that returns no response leaves the 401 in place (as far as the status goes; see Left out) |
| `XsrfProperties.JsonPayloadDecoded` | src/XsrfProtection.php:351-355 | A string that decodes as JSON gives `(array)` of its decoding |
| `XsrfProperties.JsonRoundTrip` | src/XsrfProtection.php:351-355 | A payload stored as the JSON text of an array reads back as that array |
| `XsrfProperties.JsonPayloadSameVerdict` | src/XsrfProtection.php:343-358 | Storing a payload as an array or as its JSON text gives the same outcome for one verification pass |
| `XsrfProperties.JsonPayloadSameDecision` | src/XsrfProtection.php:74-138 | The two stored forms give the whole gate the same verdict on every request |
| `XsrfProperties.ErrorEscapesIff` | src/XsrfProtection.php:181-203 | A pass raises an error exactly when the body-parameter carrier is an array or an object, or a carrier is found and the MessagePack unpacker rejects the payload in use |
| `XsrfProperties.FallbackUsesStoredPayload` | src/XsrfProtection.php:357 | Anything but a JSON string gives `(array)` of the stored payload option, not of the argument |
| `XsrfProperties.NonJsonStringPayloadDenied` | src/XsrfProtection.php:351-357 | A stored string that is not JSON yields key "0" only. Any other claim name is then denied with "Claim not found in token" |
| `LegacyXsrf.Explode` | xsrfProtection.php:120 | There is at least one piece, no piece holds the separator, and there is exactly one piece when the string has no separator |
| `LegacyXsrf.ImplodeExplode` | xsrfProtection.php:120 | Joining the pieces with the separator gives back the string |
| `LegacyXsrf.ExplodeWithoutSeparator` | xsrfProtection.php:120 | A string without the separator is a single piece |
| `LegacyXsrf.ExplodeAfterPiece` | xsrfProtection.php:120 | The first separator ends the first piece |
| `LegacyXsrf.CookieSegmentOfPair` | xsrfProtection.php:173-174 | For "name=value", and for "name=value=more", the second piece is the value |
| `LegacyXsrf.CookieSegment` | xsrfProtection.php:173-174 | `$csrfvalue[1]` is null exactly when the string form has no "=", and otherwise a string without "=" |
| `LegacyXsrf.FetchCookie` | xsrfProtection.php:118-125 | The cookie counts as present exactly when its string form holds "=" |
| `LegacyXsrf.FetchToken` | xsrfProtection.php:134-140 | True exactly when the token attribute is set and not null |
| `LegacyXsrf.FetchClaim` | xsrfProtection.php:150-159 | True exactly when the token is an object with a non-null claim property. An array token never passes |
| `LegacyXsrf.ValidateToken` | xsrfProtection.php:170-178 | With a cookie present, a match means the claim property is a string |
| `LegacyXsrf.Passes` | xsrfProtection.php:69-88 | When all four checks pass, the cookie form holds "=" and the token is an object whose claim property is a string equal to the cookie's second piece |
| `LegacyXsrf.Decide` | xsrfProtection.php:49-92 | A refusal is the incoming response with status 401, and happens only on a protected path that no passthrough route covers |
| `LegacyXsrf.XsrfProtection.constructor` | xsrfProtection.php:22-39 | Each supplied option replaces its default and the others keep theirs |
| `LegacyXsrf.XsrfProtection.Invoke` | xsrfProtection.php:49-92 | The reply is exactly `LegacyXsrf.Decide` for the current options |
| `LegacyXsrf.XsrfProtection.GetPath` | xsrfProtection.php:197-199 | Returns the path option as stored |
| `LegacyXsrf.XsrfProtection.SetPath` | xsrfProtection.php:187-190 | Only the path option changes, and it reads back as set |
| `LegacyXsrf.XsrfProtection.GetPassthrough` | xsrfProtection.php:217-219 | Returns the passthrough option as stored |
| `LegacyXsrf.XsrfProtection.SetPassthrough` | xsrfProtection.php:207-210 | Only the passthrough option changes, and it reads back as set |
| `LegacyXsrf.XsrfProtection.GetCookie` | xsrfProtection.php:237-239 | Returns the cookie name option |
| `LegacyXsrf.XsrfProtection.SetCookie` | xsrfProtection.php:227-230 | Only the cookie name changes, and it reads back |
| `LegacyXsrf.XsrfProtection.GetToken` | xsrfProtection.php:257-259 | Returns the token attribute name option |
| `LegacyXsrf.XsrfProtection.SetToken` | xsrfProtection.php:247-250 | Only the token attribute name changes, and it reads back |
| `LegacyXsrf.XsrfProtection.GetClaim` | xsrfProtection.php:277-279 | Returns the claim name option |
| `LegacyXsrf.XsrfProtection.SetClaim` | xsrfProtection.php:267-270 | Only the claim name changes, and it reads back |
| `LegacyProperties.MethodIrrelevant` | xsrfProtection.php:49-92 | The HTTP method never changes the decision |
| `LegacyProperties.RejectIsIncomingWith401` | xsrfProtection.php:71-86 | A refusal is the incoming response with status 401, with the same headers and body |
| `LegacyProperties.RejectIff` | xsrfProtection.php:53-91 | The gate refuses exactly on a protected, non-passthrough path whose checks fail |
| `LegacyProperties.PassthroughCallsNext` | xsrfProtection.php:54-58 | A matching passthrough route always calls the next handler |
| `LegacyProperties.DefaultsProtectEverything` | xsrfProtection.php:22-28 | Under the defaults every path is protected and none is passed through |
| `LegacyProperties.MissingCookieRejected` | xsrfProtection.php:70-72 | On a protected path that no passthrough route covers, a cookie form without "=" is refused, whatever the options |
| `LegacyProperties.MissingTokenRejected` | xsrfProtection.php:75-77 | On a protected path that no passthrough route covers, a token attribute that is absent or null is refused, whatever the options |
| `LegacyProperties.NonObjectTokenRejected` | xsrfProtection.php:150-157 | On a protected path that no passthrough route covers, a token that is not an object is refused, whatever the options |
| `LegacyProperties.MissingClaimRejected` | xsrfProtection.php:155-157 | On a protected path that no passthrough route covers, a null or missing claim property is refused, whatever the options |
| `LegacyProperties.PassesForCookiePair` | xsrfProtection.php:170-178 | With cookie form "name=value", the checks pass exactly when the token's claim property is the string value |
| `LegacyProperties.EmptyValueAccepted` | xsrfProtection.php:170-178 | An empty cookie value is accepted against an empty-string claim, which the newer gate refuses |
| `LegacyProperties.ExtraPiecesIgnored` | xsrfProtection.php:173-174 | With cookie form "name=value=more", the checks pass exactly when the claim property is the string value, so a claim "value=more" is refused |

## Left out

- Logging: `log`, `setLogger` and `getLogger` are not modelled. The "Payload not found in options" message at src/XsrfProtection.php:109 is only logged, so it is left out too.
- JSON and MessagePack decoding are parameters (`Xsrf.Codecs`). Their internals are not modelled, and the MessagePack branch is proved only as far as the unpacker's answer allows.
- Cookie parsing is not modelled. The new gate reads a map of cookie values; the older gate takes the cookie object's string form as a function (`LegacyXsrf.CookieForm`).
- LegacyXsrf.CookieForm: what the string form holds is not modelled, neither URL-encoding nor how an absent cookie renders. If an absent cookie renders as "name=", `fetchCookie` never fails, and with an empty-string claim a request without the cookie passes (`LegacyProperties.EmptyValueAccepted`). `LegacyProperties.MissingCookieRejected` covers only forms without "=".
- HTTP plumbing is not modelled: the response factory, the double-pass adapter, and the next handler's own response. Calling the next handler is the verdict `Downstream` or `Next`.
- Route matching uses the literal prefix test, not the regular-expression engine. Routes are assumed free of regular-expression metacharacters and of "@", and request paths free of line breaks.
- Header names are matched as given, without HTTP's case-insensitivity. A parsed body that is an object rather than an array is not modelled.
- PHP arrays are unordered maps; no decision depends on entry order.
- Floats are not modelled. A float body parameter would become the anti-CSRF value through the `?string` coercion, and a float claim would be checked by `empty()` and `===`; neither case is covered.
- Routes are assumed to be strings or lists of strings.
- Options set by reflection over a key/value array are replaced by an explicit `Settings` record. It has no "logger" entry, because logging is left out.
- Xsrf.XsrfProtection.GetMessage: returns None where PHP's `: string` return type raises a TypeError if no message was ever set.
- Xsrf.XsrfProtection.GetError: returns None where PHP's `: Closure` return type raises a TypeError if no hook was set.
- Xsrf.ErrorHook: receives the message string rather than the array `["message" => …]`, and yields None for any non-response result.
- XsrfProperties.HookWithoutResponseKeeps401: responses are values here, so a hook's writes to the 401 object it is handed (its mutable body stream, say) are not modelled. When a hook returns no response, only the status 401 is promised for the response actually sent; the same holds for `XsrfProperties.DenialShape` and `Xsrf.ErrorResponse`.
- Concurrent requests sharing one middleware instance are not modelled. Each call sees the options and message the previous call left.
- LegacyXsrf.FetchClaim: follows PHP 7, where `array_key_exists` on a non-array, non-object value warns and returns null. PHP 8 raises a TypeError for those, and for objects too. An object token is the only one the gate accepts, so under PHP 8 no request on a protected path gets through.
