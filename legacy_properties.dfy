/**
 * What the older gate, xsrfProtection.php, promises, stated over
 * LegacyXsrf.Decide.
 */
module LegacyProperties {
  import opened Php
  import opened Paths
  import opened Http
  import opened LegacyXsrf

  /** There is no method gate: the HTTP method never changes the decision. */
  lemma MethodIrrelevant(o: Options, form: CookieForm, req: Request, response: Response, verb: string)
    ensures Decide(o, form, req.(verb := verb), response) == Decide(o, form, req, response)
  {
  }

  /** A refusal is the incoming response with status 401 and nothing else changed. */
  lemma RejectIsIncomingWith401(o: Options, form: CookieForm, req: Request, response: Response)
    requires Decide(o, form, req, response).Reject?
    ensures Decide(o, form, req, response).response == response.(status := 401)
    ensures Decide(o, form, req, response).response.headers == response.headers
    ensures Decide(o, form, req, response).response.body == response.body
  {
  }

  /** The gate refuses exactly on a protected, non-passthrough path whose checks fail. */
  lemma RejectIff(o: Options, form: CookieForm, req: Request, response: Response)
    ensures Decide(o, form, req, response).Reject? <==>
              && !AnyRouteMatches(Normalize(req.path), AsList(o.passthrough))
              && AnyRouteMatches(Normalize(req.path), AsList(o.path))
              && !Passes(o, form, req)
  {
  }

  /** A passthrough route wins over every protected route. */
  lemma PassthroughCallsNext(o: Options, form: CookieForm, req: Request, response: Response, k: nat)
    requires k < |AsList(o.passthrough)|
    requires RouteMatches(Normalize(req.path), AsList(o.passthrough)[k])
    ensures Decide(o, form, req, response) == Next
  {
  }

  /** Under the defaults every path is protected and none is passed through. */
  lemma DefaultsProtectEverything(req: Request)
    ensures AnyRouteMatches(Normalize(req.path), AsList(Defaults.path))
    ensures !AnyRouteMatches(Normalize(req.path), AsList(Defaults.passthrough))
  {
    SlashRouteMatchesAll(Normalize(req.path), "/");
    assert AsList(Defaults.path)[0] == "/";
  }

  /** A cookie form without "=" is refused on every protected, non-passthrough path. */
  lemma MissingCookieRejected(o: Options, form: CookieForm, req: Request, response: Response)
    requires !AnyRouteMatches(Normalize(req.path), AsList(o.passthrough))
    requires AnyRouteMatches(Normalize(req.path), AsList(o.path))
    requires '=' !in form(req.cookies, o.cookie)
    ensures Decide(o, form, req, response) == Reject(response.(status := 401))
  {
  }

  /** Without the token attribute a request on a protected, non-passthrough path is refused. */
  lemma MissingTokenRejected(o: Options, form: CookieForm, req: Request, response: Response)
    requires !AnyRouteMatches(Normalize(req.path), AsList(o.passthrough))
    requires AnyRouteMatches(Normalize(req.path), AsList(o.path))
    requires Attribute(req, o.token) == Null
    ensures Decide(o, form, req, response) == Reject(response.(status := 401))
  {
  }

  /**
   * A token that is not an object (a string or an array, say) is refused
   * on a protected, non-passthrough path whatever the method: the claim
   * lives on an object property.
   */
  lemma NonObjectTokenRejected(o: Options, form: CookieForm, req: Request, response: Response)
    requires !AnyRouteMatches(Normalize(req.path), AsList(o.passthrough))
    requires AnyRouteMatches(Normalize(req.path), AsList(o.path))
    requires !Attribute(req, o.token).Obj?
    ensures Decide(o, form, req, response) == Reject(response.(status := 401))
  {
  }

  /** A null or missing claim property is refused on a protected, non-passthrough path. */
  lemma MissingClaimRejected(o: Options, form: CookieForm, req: Request, response: Response)
    requires !AnyRouteMatches(Normalize(req.path), AsList(o.passthrough))
    requires AnyRouteMatches(Normalize(req.path), AsList(o.path))
    requires Property(Attribute(req, o.token), o.claim) == Null
    ensures Decide(o, form, req, response) == Reject(response.(status := 401))
  {
  }

  /**
   * With the cookie's string form "name=value" (no "=" inside either),
   * the checks pass exactly when the token is an object whose claim
   * property is the string value.
   */
  lemma PassesForCookiePair(o: Options, form: CookieForm, req: Request, name: string, value: string)
    requires form(req.cookies, o.cookie) == name + "=" + value
    requires '=' !in name && '=' !in value
    ensures Passes(o, form, req) <==>
              var t := Attribute(req, o.token);
              t.Obj? && o.claim in t.props && t.props[o.claim] == Str(value)
  {
    CookieSegmentOfPair(name, value, "");
  }

  /**
   * Unlike the newer gate, an empty cookie value is accepted when the
   * claim is the empty string.
   */
  lemma EmptyValueAccepted(o: Options, form: CookieForm, req: Request, response: Response, name: string)
    requires form(req.cookies, o.cookie) == name + "="
    requires '=' !in name
    requires Attribute(req, o.token) == Obj(map[o.claim := Str("")])
    ensures Decide(o, form, req, response) == Next
  {
    PassesForCookiePair(o, form, req, name, "");
  }

  /**
   * Only the piece after the first "=" counts: with "name=value=more"
   * the checks pass exactly when the claim property is value, so a claim
   * "value=more" is refused.
   */
  lemma ExtraPiecesIgnored(o: Options, form: CookieForm, req: Request, name: string, value: string, more: string)
    requires form(req.cookies, o.cookie) == name + "=" + value + "=" + more
    requires '=' !in name && '=' !in value
    ensures Passes(o, form, req) <==>
              var t := Attribute(req, o.token);
              t.Obj? && o.claim in t.props && t.props[o.claim] == Str(value)
  {
    CookieSegmentOfPair(name, value, more);
  }
}
