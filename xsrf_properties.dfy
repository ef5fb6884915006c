/**
 * What the gate of src/XsrfProtection.php promises, stated over the
 * decision functions of module Xsrf: which requests are never checked,
 * which checks deny and with what message, how the token payload is
 * resolved and cached, and exactly when access is granted.
 */
module XsrfProperties {
  import opened Php
  import opened Paths
  import opened Http
  import opened Xsrf

  /* ---------- Gating: method, passthrough, protected paths ---------- */

  /** Only the four listed methods are checked, compared case-sensitively. */
  lemma CheckedMethodsExact(verb: string)
    ensures NeedsCheck(verb) <==> verb == "POST" || verb == "PUT" || verb == "PATCH" || verb == "DELETE"
    ensures !NeedsCheck("GET") && !NeedsCheck("HEAD") && !NeedsCheck("OPTIONS") && !NeedsCheck("post")
  {
  }

  /** A safe method goes downstream with nothing read and nothing changed. */
  lemma SafeMethodGoesDownstream(o: Options, c: Codecs, m: Option<string>, req: Request)
    requires !NeedsCheck(req.verb)
    ensures Decide(o, c, m, req) == Decision(Returns(Downstream), o, m)
  {
  }

  /** A path under a passthrough route goes downstream even when a protected route matches it too. */
  lemma PassthroughGoesDownstream(o: Options, c: Codecs, m: Option<string>, req: Request, k: nat)
    requires k < |AsList(o.passthrough)|
    requires RouteMatches(Normalize(req.path), AsList(o.passthrough)[k])
    ensures Decide(o, c, m, req) == Decision(Returns(Downstream), o, m)
  {
  }

  /** A passthrough route covers the path it names and its whole subtree. */
  lemma PassthroughCoversSubtree(o: Options, c: Codecs, m: Option<string>, req: Request, k: nat, rest: string)
    requires k < |AsList(o.passthrough)|
    requires var t := RTrimSlash(AsList(o.passthrough)[k]); t == [] || (t[0] == '/' && NoDoubleSlash(t))
    requires req.path == RTrimSlash(AsList(o.passthrough)[k]) || req.path == RTrimSlash(AsList(o.passthrough)[k]) + "/" + rest
    ensures Decide(o, c, m, req) == Decision(Returns(Downstream), o, m)
  {
    SubtreeMatches(AsList(o.passthrough)[k], rest);
  }

  /**
   * With the default path "/" and no passthrough route matching, every
   * checked request is verified, whatever its path.
   */
  lemma DefaultPathProtectsEverything(o: Options, c: Codecs, m: Option<string>, req: Request)
    requires o.path == Defaults.path
    requires NeedsCheck(req.verb)
    requires !AnyRouteMatches(Normalize(req.path), AsList(o.passthrough))
    ensures Decide(o, c, m, req) == VerifyPass(o, c, m, req)
  {
    SlashRouteMatchesAll(Normalize(req.path), "/");
    assert AsList(o.path)[0] == "/";
  }

  /** A path no protected route matches goes downstream unchecked. */
  lemma UnprotectedPathGoesDownstream(o: Options, c: Codecs, m: Option<string>, req: Request)
    requires !AnyRouteMatches(Normalize(req.path), AsList(o.path))
    ensures Decide(o, c, m, req) == Decision(Returns(Downstream), o, m)
  {
  }

  /**
   * Only a checked request on a protected path that no passthrough
   * route covers can be denied or change the gate's state.
   */
  lemma OnlyProtectedPathsChecked(o: Options, c: Codecs, m: Option<string>, req: Request)
    requires Decide(o, c, m, req) != Decision(Returns(Downstream), o, m)
    ensures NeedsCheck(req.verb)
    ensures !AnyRouteMatches(Normalize(req.path), AsList(o.passthrough))
    ensures AnyRouteMatches(Normalize(req.path), AsList(o.path))
  {
  }

  /* ---------- The checks of one pass ---------- */

  /**
   * The carrier is looked up first: when there is none the request is
   * denied before the payload is resolved, so nothing is cached and no
   * claim is read.
   */
  lemma MissingCarrierDeniedFirst(o: Options, c: Codecs, m: Option<string>, req: Request)
    requires FindCarrier(o.anticsrf, req) == Returns(None)
    ensures VerifyPass(o, c, m, req) == Fail(o, AntiCsrfNotFound)
    ensures VerifyPass(o, c, m, req).options == o
  {
  }

  /** A stored payload is used as it is: the request's attributes are never consulted. */
  lemma StoredPayloadIgnoresAttributes(o: Options, c: Codecs, m: Option<string>, req: Request, attributes: map<string, Value>)
    requires o.payload != Null
    ensures VerifyPass(o, c, m, req) == VerifyPass(o, c, m, req.(attributes := attributes))
  {
    assert FindCarrier(o.anticsrf, req) == FindCarrier(o.anticsrf, req.(attributes := attributes));
  }

  /** With no stored payload and no token attribute, a found carrier is denied for the missing payload. */
  lemma MissingAttributeDenied(o: Options, c: Codecs, m: Option<string>, req: Request)
    requires FindCarrier(o.anticsrf, req).Returns? && FindCarrier(o.anticsrf, req).value.Some?
    requires o.payload == Null && Attribute(req, o.token) == Null
    ensures VerifyPass(o, c, m, req) == Fail(o, PayloadNotFound)
  {
  }

  /** The payload a pass works with: the stored option, else the token attribute. */
  function ResolvedPayload(o: Options, req: Request): Value {
    if o.payload != Null then o.payload else Attribute(req, o.token)
  }

  /**
   * Once a carrier is found, a present token attribute is stored as the
   * payload option, whether the rest of the checks pass or not.
   */
  lemma AttributeIsCached(o: Options, c: Codecs, m: Option<string>, req: Request)
    requires FindCarrier(o.anticsrf, req).Returns? && FindCarrier(o.anticsrf, req).value.Some?
    requires ResolvedPayload(o, req) != Null
    ensures VerifyPass(o, c, m, req).options == o.(payload := ResolvedPayload(o, req))
  {
  }

  /**
   * The cached payload outlives the request: on the next request the
   * options left by the first decide the same whatever attributes the
   * next request carries.
   */
  lemma CachedPayloadServesLaterRequests(o: Options, c: Codecs, m: Option<string>,
                                         first: Request, next: Request, attributes: map<string, Value>)
    requires NeedsCheck(first.verb)
    requires !AnyRouteMatches(Normalize(first.path), AsList(o.passthrough))
    requires AnyRouteMatches(Normalize(first.path), AsList(o.path))
    requires FindCarrier(o.anticsrf, first).Returns? && FindCarrier(o.anticsrf, first).value.Some?
    requires o.payload == Null && Attribute(first, o.token) != Null
    ensures var d := Decide(o, c, m, first);
            && d.options.payload == Attribute(first, o.token)
            && Decide(d.options, c, d.message, next) ==
               Decide(d.options, c, d.message, next.(attributes := attributes))
  {
    var d := Decide(o, c, m, first);
    assert d == VerifyPass(o, c, m, first);
    AttributeIsCached(o, c, m, first);
    StoredPayloadIgnoresAttributes(d.options, c, d.message, next, attributes);
  }

  /** The decoded payload a pass reads its claim from. */
  function DecodedPayload(o: Options, c: Codecs, req: Request): Outcome<PhpArray> {
    var p := ResolvedPayload(o, req);
    TransformPayload(o.(payload := p), c, p)
  }

  /** A carrier and a payload were found: what the claim checks see. */
  predicate Resolved(o: Options, c: Codecs, req: Request) {
    && FindCarrier(o.anticsrf, req).Returns?
    && FindCarrier(o.anticsrf, req).value.Some?
    && ResolvedPayload(o, req) != Null
    && DecodedPayload(o, c, req).Returns?
  }

  /** A decoded payload without the claim key is denied with "Claim not found in token". */
  lemma ClaimMissingDenied(o: Options, c: Codecs, m: Option<string>, req: Request)
    requires Resolved(o, c, req)
    requires o.claim !in DecodedPayload(o, c, req).value
    ensures VerifyPass(o, c, m, req) == Fail(o.(payload := ResolvedPayload(o, req)), ClaimNotFound)
  {
  }

  /** A claim that is PHP-empty is denied with "No random key find in claim". */
  lemma ClaimEmptyDenied(o: Options, c: Codecs, m: Option<string>, req: Request)
    requires Resolved(o, c, req)
    requires o.claim in DecodedPayload(o, c, req).value && Empty(DecodedPayload(o, c, req).value[o.claim])
    ensures VerifyPass(o, c, m, req) == Fail(o.(payload := ResolvedPayload(o, req)), ClaimEmpty)
  {
  }

  /** A non-empty claim that is not strictly the carrier's string is denied as a mismatch. */
  lemma MismatchDenied(o: Options, c: Codecs, m: Option<string>, req: Request)
    requires Resolved(o, c, req)
    requires var d := DecodedPayload(o, c, req).value;
             o.claim in d && !Empty(d[o.claim]) && d[o.claim] != Str(FindCarrier(o.anticsrf, req).value.value)
    ensures VerifyPass(o, c, m, req) == Fail(o.(payload := ResolvedPayload(o, req)), TokenMismatch)
  {
  }

  /* ---------- When access is granted ---------- */

  /**
   * The reference condition for a granted pass, written as one
   * conjunction: a carrier string that is not "" or "0", a payload, and
   * a decoded claim that is exactly that string.
   */
  predicate Granted(o: Options, c: Codecs, req: Request) {
    && Resolved(o, c, req)
    && var anti := FindCarrier(o.anticsrf, req).value.value;
       && anti != "" && anti != "0"
       && o.claim in DecodedPayload(o, c, req).value
       && DecodedPayload(o, c, req).value[o.claim] == Str(anti)
  }

  /** A pass lets the request through exactly when the reference condition holds. */
  lemma {:induction false} GrantIff(o: Options, c: Codecs, m: Option<string>, req: Request)
    ensures VerifyPass(o, c, m, req).outcome == Returns(Downstream) <==> Granted(o, c, req)
  {
    match FindCarrier(o.anticsrf, req)
    case Throws =>
    case Returns(None) =>
    case Returns(Some(anti)) =>
      EmptyString(anti);
  }

  /** The whole gate, for a checked method on a protected, non-passthrough path. */
  lemma DecideGrantIff(o: Options, c: Codecs, m: Option<string>, req: Request)
    requires NeedsCheck(req.verb)
    requires !AnyRouteMatches(Normalize(req.path), AsList(o.passthrough))
    requires AnyRouteMatches(Normalize(req.path), AsList(o.path))
    ensures Decide(o, c, m, req).outcome == Returns(Downstream) <==> Granted(o, c, req)
  {
    GrantIff(o, c, m, req);
  }

  /** A carrier "" or "0" is never accepted: the claim it would need is empty. */
  lemma EmptyCarrierNeverGranted(o: Options, c: Codecs, m: Option<string>, req: Request)
    requires FindCarrier(o.anticsrf, req) == Returns(Some("")) || FindCarrier(o.anticsrf, req) == Returns(Some("0"))
    ensures VerifyPass(o, c, m, req).outcome != Returns(Downstream)
  {
    GrantIff(o, c, m, req);
  }

  /** The match is strict: an integer claim is never accepted, even when it reads as the carrier's digits. */
  lemma IntegerClaimNeverGranted(o: Options, c: Codecs, m: Option<string>, req: Request, i: int)
    requires Resolved(o, c, req)
    requires o.claim in DecodedPayload(o, c, req).value && DecodedPayload(o, c, req).value[o.claim] == Int(i)
    ensures VerifyPass(o, c, m, req).outcome != Returns(Downstream)
  {
    GrantIff(o, c, m, req);
  }

  /* ---------- Denials and the error hook ---------- */

  /** The five denial messages. */
  predicate IsDenialMessage(s: string) {
    s == AntiCsrfNotFound || s == PayloadNotFound || s == ClaimNotFound || s == ClaimEmpty || s == TokenMismatch
  }

  /**
   * A denial keeps its message as the last message and answers the 401
   * response, replaced by the hook's response only when the hook gives one.
   */
  lemma DenialShape(o: Options, c: Codecs, m: Option<string>, req: Request)
    requires VerifyPass(o, c, m, req).outcome.Returns? && VerifyPass(o, c, m, req).outcome.value.Deny?
    ensures var d := VerifyPass(o, c, m, req);
            var msg := d.outcome.value.message;
            && IsDenialMessage(msg)
            && d.message == Some(msg)
            && d.outcome.value.response == ErrorResponse(d.options.error, Unauthorized, msg)
            && (d.options.error.None? ==> d.outcome.value.response == Unauthorized)
  {
  }

  /** The hook's answer is used only when it is a response; otherwise the 401 stands. */
  lemma HookWithoutResponseKeeps401(hook: ErrorHook, message: string)
    requires hook(Unauthorized, message).None?
    ensures ErrorResponse(Some(hook), Unauthorized, message) == Unauthorized
  {
  }

  /* ---------- Payload decoding ---------- */

  /** A JSON string decodes to the array of its decoding, whatever is stored. */
  lemma JsonPayloadDecoded(o: Options, c: Codecs, s: string, v: Value)
    requires !o.msgpack && c.jsonDecode(s) == Some(v)
    ensures TransformPayload(o, c, Str(s)) == Returns(ToArray(v))
  {
  }

  /** Round trip: a payload stored as the JSON encoding of an array reads back as that array. */
  lemma JsonRoundTrip(o: Options, c: Codecs, encode: PhpArray -> string, a: PhpArray)
    requires !o.msgpack
    requires c.jsonDecode(encode(a)) == Some(Arr(a))
    ensures TransformPayload(o.(payload := Str(encode(a))), c, Str(encode(a))) == Returns(a)
  {
  }

  /** A payload stored as an array and as its JSON text gets the same verdict. */
  lemma JsonPayloadSameVerdict(o: Options, c: Codecs, m: Option<string>, req: Request, encode: PhpArray -> string, a: PhpArray)
    requires !o.msgpack
    requires c.jsonDecode(encode(a)) == Some(Arr(a))
    ensures VerifyPass(o.(payload := Arr(a)), c, m, req).outcome == VerifyPass(o.(payload := Str(encode(a))), c, m, req).outcome
  {
  }

  /** The same holds for the whole gate: the two stored forms get the same verdict on every request. */
  lemma JsonPayloadSameDecision(o: Options, c: Codecs, m: Option<string>, req: Request, encode: PhpArray -> string, a: PhpArray)
    requires !o.msgpack
    requires c.jsonDecode(encode(a)) == Some(Arr(a))
    ensures Decide(o.(payload := Arr(a)), c, m, req).outcome == Decide(o.(payload := Str(encode(a))), c, m, req).outcome
  {
    JsonPayloadSameVerdict(o, c, m, req, encode, a);
  }

  /**
   * The two errors that escape the gate instead of a 401: a body-parameter
   * carrier the `?string` return refuses, and a payload the MessagePack
   * unpacker rejects.
   */
  lemma ErrorEscapesIff(o: Options, c: Codecs, m: Option<string>, req: Request)
    ensures VerifyPass(o, c, m, req).outcome == Throws <==>
              || FindCarrier(o.anticsrf, req).Throws?
              || (&& FindCarrier(o.anticsrf, req).Returns?
                  && FindCarrier(o.anticsrf, req).value.Some?
                  && ResolvedPayload(o, req) != Null
                  && o.msgpack
                  && c.unpack(ResolvedPayload(o, req)).None?)
  {
  }

  /**
   * Anything but a JSON string falls back to `(array)` of the STORED
   * option, not of the argument.
   */
  lemma FallbackUsesStoredPayload(o: Options, c: Codecs, p: Value)
    requires !o.msgpack
    requires !(p.Str? && c.jsonDecode(p.s).Some?)
    ensures TransformPayload(o, c, p) == Returns(ToArray(o.payload))
  {
  }

  /**
   * A stored string that is not JSON becomes the one-element array under
   * key "0", so any other claim name is missing and the request is denied.
   */
  lemma NonJsonStringPayloadDenied(o: Options, c: Codecs, m: Option<string>, req: Request, s: string)
    requires !o.msgpack && o.payload == Str(s) && c.jsonDecode(s).None?
    requires o.claim != "0"
    requires FindCarrier(o.anticsrf, req).Returns? && FindCarrier(o.anticsrf, req).value.Some?
    ensures TransformPayload(o, c, o.payload) == Returns(map["0" := Str(s)])
    ensures VerifyPass(o, c, m, req) == Fail(o, ClaimNotFound)
  {
  }
}
