/**
 * The double-submit-cookie gate of src/XsrfProtection.php.
 *
 * For a request with a state-changing method on a protected path the
 * gate looks up an anti-CSRF value (cookie, then header, then body
 * parameter), resolves the token payload (the stored `payload` option,
 * or the request attribute named by `token`, which is then cached in
 * that option), and grants access only when the payload's claim is a
 * non-empty value strictly equal to the anti-CSRF value. The first
 * failing check answers 401, passed through the optional error hook.
 *
 * The pure functions below state one verification pass (VerifyPass)
 * and the whole decision (Decide); the class XsrfProtection keeps the
 * options and the last message as fields and its methods are proved to
 * act as those functions say.
 */
module Xsrf {
  import opened Php
  import opened Paths
  import opened Http

  /**
   * The error hook, called with the 401 response and the denial message;
   * it yields None when it returns anything that is not a response.
   */
  type ErrorHook = (Response, string) -> Option<Response>

  /**
   * The foreign decoders: `json_decode($s, true)` (None when
   * `json_last_error()` reports an error) and MessagePack's
   * `BufferUnpacker` (None when it throws).
   */
  datatype Codecs = Codecs(jsonDecode: string -> Option<Value>, unpack: Value -> Option<Value>)

  /** The option array; `payload` is Null while no payload is stored. */
  datatype Options = Options(
    path: Routes,
    passthrough: Routes,
    payload: Value,
    anticsrf: string,
    token: string,
    claim: string,
    error: Option<ErrorHook>,
    msgpack: bool)

  const Defaults := Options(Single("/"), NoRoutes, Null, "xCsrf", "token", "csrf", None, false)

  /** The options a caller may pass to the constructor; None leaves the default in place. */
  datatype Settings = Settings(
    path: Option<Routes>,
    passthrough: Option<Routes>,
    payload: Option<Value>,
    anticsrf: Option<string>,
    token: Option<string>,
    claim: Option<string>,
    error: Option<ErrorHook>,
    msgpack: Option<bool>,
    message: Option<string>)

  /** The methods that are checked; every other method is safe. */
  const CheckedMethods: seq<string> := ["POST", "PUT", "PATCH", "DELETE"]

  const AntiCsrfNotFound := "Anti csrf not found"
  const PayloadNotFound := "Payload not found in request attribute"
  const ClaimNotFound := "Claim not found in token"
  const ClaimEmpty := "No random key find in claim"
  const TokenMismatch := "Token and anti csrf don't match, access denied !"

  /** `in_array($method, REQUESTMETHOD, true)`: exact, case-sensitive membership. */
  function NeedsCheck(verb: string): (r: bool)
    ensures r <==> verb == "POST" || verb == "PUT" || verb == "PATCH" || verb == "DELETE"
  {
    verb in CheckedMethods
  }

  /** Either the request goes to the next handler, or it is denied with a message and a response. */
  datatype Verdict = Downstream | Deny(message: string, response: Response)

  /**
   * Where the anti-CSRF value comes from: the named cookie if it is set,
   * else the first value of the named header, else the named body
   * parameter unless it is null. A body parameter is handed back through
   * the `?string` return type, so a scalar is coerced and an array or an
   * object raises a TypeError.
   */
  function FindCarrier(name: string, req: Request): (r: Outcome<Option<string>>)
    ensures name in req.cookies ==> r == Returns(Some(req.cookies[name]))
    ensures name !in req.cookies && HeaderValues(req, name) != [] ==>
              r == Returns(Some(HeaderValues(req, name)[0]))
    ensures name !in req.cookies && HeaderValues(req, name) == [] && BodyParam(req, name).Str? ==>
              r == Returns(Some(BodyParam(req, name).s))
    ensures r == Returns(None) <==>
              name !in req.cookies && HeaderValues(req, name) == [] && BodyParam(req, name) == Null
    ensures r.Throws? <==>
              name !in req.cookies && HeaderValues(req, name) == [] &&
              (BodyParam(req, name).Arr? || BodyParam(req, name).Obj?)
  {
    if name in req.cookies then Returns(Some(req.cookies[name]))
    else if HeaderValues(req, name) != [] then Returns(Some(HeaderValues(req, name)[0]))
    else if BodyParam(req, name) == Null then Returns(None)
    else match CoerceToString(BodyParam(req, name))
      case Returns(s) => Returns(Some(s))
      case Throws => Throws
  }

  /**
   * `transformPayload`: with MessagePack on, `(array)` of the unpacked
   * value; otherwise a string that is valid JSON gives `(array)` of its
   * decoding, and anything else gives `(array)` of the STORED payload
   * option, whatever the argument was.
   */
  function TransformPayload(o: Options, c: Codecs, p: Value): (r: Outcome<PhpArray>)
    ensures !o.msgpack ==> r.Returns?
    ensures o.msgpack ==> (r.Returns? <==> c.unpack(p).Some?)
  {
    if o.msgpack then
      match c.unpack(p)
      case Some(v) => Returns(ToArray(v))
      case None => Throws
    else if p.Str? && c.jsonDecode(p.s).Some? then Returns(ToArray(c.jsonDecode(p.s).value))
    else Returns(ToArray(o.payload))
  }

  /**
   * `error`: the hook's result replaces the response only when the hook
   * is set and returns a response.
   */
  function ErrorResponse(hook: Option<ErrorHook>, response: Response, message: string): (r: Response)
    ensures r != response ==> hook.Some? && hook.value(response, message) == Some(r)
    ensures hook.Some? && hook.value(response, message).Some? ==> r == hook.value(response, message).value
  {
    match hook
    case None => response
    case Some(h) =>
      match h(response, message)
      case Some(replacement) => replacement
      case None => response
  }

  /** What handling a request leaves: its outcome, the options and the last message. */
  datatype Decision = Decision(outcome: Outcome<Verdict>, options: Options, message: Option<string>)

  /** A denial with message m: 401 through the hook, and m kept as the last message. */
  function Fail(o: Options, m: string): Decision {
    Decision(Returns(Deny(m, ErrorResponse(o.error, Unauthorized, m))), o, Some(m))
  }

  /** One verification pass on a protected path: the checks in order, first failure wins. */
  function VerifyPass(o: Options, c: Codecs, msg: Option<string>, req: Request): (r: Decision)
    ensures r.options == o || (o.payload == Null && r.options == o.(payload := Attribute(req, o.token)))
    ensures r.outcome.Returns? && r.outcome.value.Deny? ==>
              && r.message == Some(r.outcome.value.message)
              && r.outcome.value.response == ErrorResponse(r.options.error, Unauthorized, r.outcome.value.message)
    ensures !(r.outcome.Returns? && r.outcome.value.Deny?) ==> r.message == msg
  {
    match FindCarrier(o.anticsrf, req)
    case Throws => Decision(Throws, o, msg)
    case Returns(None) => Fail(o, AntiCsrfNotFound)
    case Returns(Some(anti)) =>
      if o.payload == Null && Attribute(req, o.token) == Null then Fail(o, PayloadNotFound)
      else
        var o' := if o.payload == Null then o.(payload := Attribute(req, o.token)) else o;
        match TransformPayload(o', c, o'.payload)
        case Throws => Decision(Throws, o', msg)
        case Returns(decoded) =>
          if o'.claim !in decoded then Fail(o', ClaimNotFound)
          else if Empty(decoded[o'.claim]) then Fail(o', ClaimEmpty)
          else if decoded[o'.claim] == Str(anti) then Decision(Returns(Downstream), o', msg)
          else Fail(o', TokenMismatch)
  }

  /**
   * The whole decision: safe methods, passthrough paths and unprotected
   * paths go downstream untouched; a protected path gets one
   * verification pass (running it once per matching route, as
   * `process` does, gives the same result).
   */
  function Decide(o: Options, c: Codecs, msg: Option<string>, req: Request): (r: Decision)
    ensures r.options == o || (o.payload == Null && r.options == o.(payload := Attribute(req, o.token)))
  {
    var uri := Normalize(req.path);
    if !NeedsCheck(req.verb) then Decision(Returns(Downstream), o, msg)
    else if AnyRouteMatches(uri, AsList(o.passthrough)) then Decision(Returns(Downstream), o, msg)
    else if AnyRouteMatches(uri, AsList(o.path)) then VerifyPass(o, c, msg, req)
    else Decision(Returns(Downstream), o, msg)
  }

  /**
   * A pass that let the request through leaves a state on which the
   * same pass does the same: the payload it used is now stored.
   */
  lemma PassIsStable(o: Options, c: Codecs, msg: Option<string>, req: Request)
    requires VerifyPass(o, c, msg, req).outcome == Returns(Downstream)
    ensures var d := VerifyPass(o, c, msg, req); VerifyPass(d.options, c, d.message, req) == d
  {
  }

  /** On a checked request that no passthrough route covers, the decision is the pass or, off the protected paths, nothing. */
  lemma DecideOnChecked(o: Options, c: Codecs, msg: Option<string>, req: Request)
    requires NeedsCheck(req.verb)
    requires !AnyRouteMatches(Normalize(req.path), AsList(o.passthrough))
    ensures Decide(o, c, msg, req) ==
              if AnyRouteMatches(Normalize(req.path), AsList(o.path)) then VerifyPass(o, c, msg, req)
              else Decision(Returns(Downstream), o, msg)
  {
  }

  class XsrfProtection {
    var options: Options
    /** The last error message; None until one is set. */
    var message: Option<string>
    const codecs: Codecs

    /**
     * The constructor: every supplied option overrides its default, the
     * rest keep theirs; a supplied message becomes the last message.
     */
    constructor (settings: Settings, codecs: Codecs)
      ensures options == Options(
                settings.path.GetOr(Defaults.path),
                settings.passthrough.GetOr(Defaults.passthrough),
                settings.payload.GetOr(Defaults.payload),
                settings.anticsrf.GetOr(Defaults.anticsrf),
                settings.token.GetOr(Defaults.token),
                settings.claim.GetOr(Defaults.claim),
                settings.error,
                settings.msgpack.GetOr(Defaults.msgpack))
      ensures message == settings.message
      ensures this.codecs == codecs
    {
      options := Options(
        settings.path.GetOr(Defaults.path),
        settings.passthrough.GetOr(Defaults.passthrough),
        settings.payload.GetOr(Defaults.payload),
        settings.anticsrf.GetOr(Defaults.anticsrf),
        settings.token.GetOr(Defaults.token),
        settings.claim.GetOr(Defaults.claim),
        settings.error,
        settings.msgpack.GetOr(Defaults.msgpack));
      message := settings.message;
      this.codecs := codecs;
    }

    /** `process`: the gate, with its loops over passthrough and protected routes. */
    method Process(req: Request) returns (r: Outcome<Verdict>)
      modifies this`options, this`message
      ensures Decision(r, options, message) == Decide(old(options), codecs, old(message), req)
    {
      var uri := Normalize(req.path);
      if !NeedsCheck(req.verb) {
        return Returns(Downstream);
      }

      var passedThrough := FindMatch(uri, AsList(options.passthrough));
      if passedThrough {
        return Returns(Downstream);
      }

      DecideOnChecked(options, codecs, message, req);
      r := CheckPaths(req, uri);
    }

    /**
     * The `foreach` over the protected routes: every matching route runs
     * the checks, and the first failure ends the request.
     */
    method CheckPaths(req: Request, uri: string) returns (r: Outcome<Verdict>)
      modifies this`options, this`message
      ensures Decision(r, options, message) ==
                if AnyRouteMatches(uri, AsList(old(options).path)) then VerifyPass(old(options), codecs, old(message), req)
                else Decision(Returns(Downstream), old(options), old(message))
    {
      ghost var o0, m0 := options, message;
      ghost var d := VerifyPass(o0, codecs, m0, req);
      ghost var matched := false;
      var paths := AsList(options.path);
      var i := 0;
      while i < |paths|
        invariant 0 <= i <= |paths|
        invariant paths == AsList(o0.path)
        invariant !matched ==> forall k :: 0 <= k < i ==> !RouteMatches(uri, paths[k])
        invariant !matched ==> options == o0 && message == m0
        invariant matched ==> AnyRouteMatches(uri, paths)
        invariant matched ==> d.outcome == Returns(Downstream) && options == d.options && message == d.message
      {
        if RouteMatches(uri, paths[i]) {
          if matched {
            PassIsStable(o0, codecs, m0, req);
          }
          var denied := Verify(req);
          if denied.Some? {
            return denied.value;
          }
          matched := true;
        }
        i := i + 1;
      }
      return Returns(Downstream);
    }

    /**
     * The checks `process` runs for a matching protected route, in the
     * order carrier, payload, claim, match; the first failure gives the
     * result (None: every check passed).
     */
    method Verify(req: Request) returns (r: Option<Outcome<Verdict>>)
      modifies this`options, this`message
      ensures var d := VerifyPass(old(options), codecs, old(message), req);
              && options == d.options && message == d.message
              && (r.None? <==> d.outcome == Returns(Downstream))
              && (r.Some? ==> r.value == d.outcome)
    {
      var anti := CsrfExist(req);
      if anti.Throws? {
        return Some(Throws);
      }
      if anti.value.None? {
        return Some(Returns(Deny(message.value, ErrorResponse(options.error, Unauthorized, message.value))));
      }
      if options.payload == Null {
        var found := FetchToken(req);
        if !found {
          return Some(Returns(Deny(message.value, ErrorResponse(options.error, Unauthorized, message.value))));
        }
      }
      var claimFound := FetchClaim();
      if claimFound.Throws? {
        return Some(Throws);
      }
      if !claimFound.value {
        return Some(Returns(Deny(message.value, ErrorResponse(options.error, Unauthorized, message.value))));
      }
      var valid := ValidateToken(anti.value.value);
      if valid.Throws? {
        return Some(Throws);
      }
      if !valid.value {
        return Some(Returns(Deny(message.value, ErrorResponse(options.error, Unauthorized, message.value))));
      }
      return None;
    }

    /** `csrfExist`: the carrier lookup; on failure the last message says so. */
    method CsrfExist(req: Request) returns (r: Outcome<Option<string>>)
      modifies this`message
      ensures r == FindCarrier(options.anticsrf, req)
      ensures message == if r == Returns(None) then Some(AntiCsrfNotFound) else old(message)
    {
      var name := options.anticsrf;
      if name in req.cookies {
        return Returns(Some(req.cookies[name]));
      }
      var headers := HeaderValues(req, name);
      if headers != [] {
        return Returns(Some(headers[0]));
      }
      var param := BodyParam(req, name);
      if param != Null {
        var s := CoerceToString(param);
        if s.Throws? {
          return Throws;
        }
        return Returns(Some(s.value));
      }
      message := Some(AntiCsrfNotFound);
      return Returns(None);
    }

    /** `fetchToken`: a present token attribute is stored as the payload option. */
    method FetchToken(req: Request) returns (found: bool)
      modifies this`options, this`message
      ensures found <==> Attribute(req, old(options).token) != Null
      ensures options == if found then old(options).(payload := Attribute(req, old(options).token)) else old(options)
      ensures message == if found then old(message) else Some(PayloadNotFound)
    {
      var decoded := Attribute(req, options.token);
      if decoded == Null {
        message := Some(PayloadNotFound);
        return false;
      }
      options := options.(payload := decoded);
      return true;
    }

    /** `fetchClaim`: the decoded payload holds a non-empty value under the claim key. */
    method FetchClaim() returns (r: Outcome<bool>)
      modifies this`message
      ensures r.Throws? <==> TransformPayload(options, codecs, options.payload).Throws?
      ensures r.Throws? ==> message == old(message)
      ensures r.Returns? ==>
                var decoded := TransformPayload(options, codecs, options.payload).value;
                && (r.value <==> options.claim in decoded && !Empty(decoded[options.claim]))
                && message == (if options.claim !in decoded then Some(ClaimNotFound)
                               else if Empty(decoded[options.claim]) then Some(ClaimEmpty)
                               else old(message))
    {
      var decoded := TransformPayload(options, codecs, options.payload);
      if decoded.Throws? {
        return Throws;
      }
      if options.claim !in decoded.value {
        message := Some(ClaimNotFound);
        return Returns(false);
      }
      if Empty(decoded.value[options.claim]) {
        message := Some(ClaimEmpty);
        return Returns(false);
      }
      return Returns(true);
    }

    /**
     * `validateToken`: the claim value is strictly the anti-CSRF string
     * (a missing claim reads as null, which equals no string).
     */
    method ValidateToken(antiCsrfValue: string) returns (r: Outcome<bool>)
      modifies this`message
      ensures r.Throws? <==> TransformPayload(options, codecs, options.payload).Throws?
      ensures r.Returns? ==>
                var decoded := TransformPayload(options, codecs, options.payload).value;
                r.value <==> options.claim in decoded && decoded[options.claim] == Str(antiCsrfValue)
      ensures message == if r == Returns(false) then Some(TokenMismatch) else old(message)
    {
      var decoded := TransformPayload(options, codecs, options.payload);
      if decoded.Throws? {
        return Throws;
      }
      var claimValue := if options.claim in decoded.value then decoded.value[options.claim] else Null;
      if claimValue == Str(antiCsrfValue) {
        return Returns(true);
      }
      message := Some(TokenMismatch);
      return Returns(false);
    }

    function GetPath(): (r: seq<string>)
      reads this
      ensures r == AsList(options.path)
    {
      AsList(options.path)
    }

    method SetPath(path: Routes)
      modifies this`options
      ensures options == old(options).(path := path)
      ensures GetPath() == AsList(path)
    {
      options := options.(path := path);
    }

    function GetPassthrough(): (r: seq<string>)
      reads this
      ensures r == AsList(options.passthrough)
    {
      AsList(options.passthrough)
    }

    method SetPassthrough(passthrough: Routes)
      modifies this`options
      ensures options == old(options).(passthrough := passthrough)
      ensures GetPassthrough() == AsList(passthrough)
    {
      options := options.(passthrough := passthrough);
    }

    /** `getPayload`: the stored payload, transformed. */
    function GetPayload(): (r: Outcome<PhpArray>)
      reads this
      ensures !options.msgpack ==> r.Returns?
      ensures !options.msgpack && (options.payload.Arr? || options.payload.Obj? || options.payload.Null?) ==>
                r == Returns(ToArray(options.payload))
    {
      TransformPayload(options, codecs, options.payload)
    }

    method SetPayload(payload: Value)
      modifies this`options
      ensures options == old(options).(payload := payload)
      ensures !options.msgpack && payload.Arr? ==> GetPayload() == Returns(payload.entries)
      ensures !options.msgpack && payload.Obj? ==> GetPayload() == Returns(payload.props)
    {
      options := options.(payload := payload);
    }

    function GetAnticsrf(): (r: string)
      reads this
      ensures r == options.anticsrf
    {
      options.anticsrf
    }

    method SetAnticsrf(antiCsrf: string)
      modifies this`options
      ensures options == old(options).(anticsrf := antiCsrf)
      ensures GetAnticsrf() == antiCsrf
    {
      options := options.(anticsrf := antiCsrf);
    }

    function GetToken(): (r: string)
      reads this
      ensures r == options.token
    {
      options.token
    }

    method SetToken(token: string)
      modifies this`options
      ensures options == old(options).(token := token)
      ensures GetToken() == token
    {
      options := options.(token := token);
    }

    function GetClaim(): (r: string)
      reads this
      ensures r == options.claim
    {
      options.claim
    }

    method SetClaim(claim: string)
      modifies this`options
      ensures options == old(options).(claim := claim)
      ensures GetClaim() == claim
    {
      options := options.(claim := claim);
    }

    function GetMessage(): (r: Option<string>)
      reads this
      ensures r == message
    {
      message
    }

    method SetMessage(message: string)
      modifies this`message
      ensures this.message == Some(message)
      ensures GetMessage() == Some(message)
    {
      this.message := Some(message);
    }

    function GetError(): (r: Option<ErrorHook>)
      reads this
      ensures r == options.error
    {
      options.error
    }

    method SetError(error: ErrorHook)
      modifies this`options
      ensures options == old(options).(error := Some(error))
      ensures GetError() == Some(error)
    {
      options := options.(error := Some(error));
    }

    function GetMsgpack(): (r: bool)
      reads this
      ensures r == options.msgpack
    {
      options.msgpack
    }

    method SetMsgpack(msgPack: bool)
      modifies this`options
      ensures options == old(options).(msgpack := msgPack)
      ensures GetMsgpack() == msgPack
    {
      options := options.(msgpack := msgPack);
    }
  }
}
