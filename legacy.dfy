/**
 * The older gate, xsrfProtection.php (a double-pass middleware invoked
 * with the request, the response and the next handler).
 *
 * It has no safe-method bypass, takes the anti-CSRF value only from the
 * string form of a cookie, and takes the token only from a request
 * attribute. A failed check answers the incoming response with status
 * 401; otherwise the next handler is called. Its checks read the
 * request and nothing else, so they are pure functions here.
 */
module LegacyXsrf {
  import opened Php
  import opened Paths
  import opened Http

  datatype Options = Options(path: Routes, passthrough: Routes, cookie: string, token: string, claim: string)

  const Defaults := Options(Single("/"), NoRoutes, "xCsrf", "token", "csrf")

  /** The options a caller may pass to the constructor; None leaves the default in place. */
  datatype Settings = Settings(
    path: Option<Routes>,
    passthrough: Option<Routes>,
    cookie: Option<string>,
    token: Option<string>,
    claim: Option<string>)

  /**
   * The string form of the cookie object `FigRequestCookies::get`
   * yields for a name, given the request's cookies.
   */
  type CookieForm = (map<string, string>, string) -> string

  /** Either the next handler is called, or the gate answers with a response. */
  datatype Reply = Next | Reject(response: Response)

  /** `explode(sep, s)`: the pieces between separators; there is always one more piece than separators. */
  function Explode(sep: char, s: string): (parts: seq<string>)
    ensures |parts| >= 1
    ensures forall k :: 0 <= k < |parts| ==> sep !in parts[k]
    ensures |parts| == 1 <==> sep !in s
  {
    if s == [] then [[]]
    else
      var rest := Explode(sep, s[1..]);
      if s[0] == sep then [[]] + rest
      else [[s[0]] + rest[0]] + rest[1..]
  }

  /** `implode(sep, parts)`: the pieces joined by the separator. */
  function Implode(sep: char, parts: seq<string>): string
    requires |parts| >= 1
  {
    if |parts| == 1 then parts[0] else parts[0] + [sep] + Implode(sep, parts[1..])
  }

  /** Exploding loses nothing: joining the pieces gives the string back. */
  lemma {:induction false} ImplodeExplode(sep: char, s: string)
    ensures Implode(sep, Explode(sep, s)) == s
  {
    if s != [] {
      var rest := Explode(sep, s[1..]);
      ImplodeExplode(sep, s[1..]);
      if s[0] == sep {
        assert Explode(sep, s)[1..] == rest;
        assert s == [] + [sep] + s[1..];
      } else if |rest| == 1 {
        assert Implode(sep, Explode(sep, s)) == [s[0]] + rest[0];
      } else {
        var parts := Explode(sep, s);
        assert parts[0] == [s[0]] + rest[0] && parts[1..] == rest[1..];
        assert Implode(sep, rest) == rest[0] + [sep] + Implode(sep, rest[1..]);
        assert s == [s[0]] + s[1..];
      }
    }
  }

  /** A string without the separator is one piece. */
  lemma ExplodeWithoutSeparator(sep: char, a: string)
    requires sep !in a
    ensures Explode(sep, a) == [a]
  {
    ImplodeExplode(sep, a);
  }

  /** The first separator ends the first piece. */
  lemma {:induction false} ExplodeAfterPiece(sep: char, a: string, b: string)
    requires sep !in a
    ensures Explode(sep, a + [sep] + b) == [a] + Explode(sep, b)
  {
    var s := a + [sep] + b;
    if a == [] {
      assert s[0] == sep && s[1..] == b;
    } else {
      assert s[0] == a[0] && s[1..] == a[1..] + [sep] + b;
      ExplodeAfterPiece(sep, a[1..], b);
      assert [a[0]] + a[1..] == a;
    }
  }

  /** The second piece of the cookie form, `$csrfvalue[1]`, or null when there is none. */
  function CookieSegment(form: string): (r: Value)
    ensures r.Null? || r.Str?
    ensures r.Null? <==> '=' !in form
    ensures r.Str? ==> '=' !in r.s
  {
    var parts := Explode('=', form);
    if |parts| > 1 then Str(parts[1]) else Null
  }

  /** For a form "name=value" (neither part holding "="), the second piece is the value. */
  lemma CookieSegmentOfPair(name: string, value: string, rest: string)
    requires '=' !in name && '=' !in value
    ensures CookieSegment(name + "=" + value) == Str(value)
    ensures CookieSegment(name + "=" + value + "=" + rest) == Str(value)
  {
    assert CookieSegment(name + "=" + value) == Str(value) by {
      ExplodeAfterPiece('=', name, value);
      ExplodeWithoutSeparator('=', value);
      assert name + "=" + value == name + ['='] + value;
    }
    assert CookieSegment(name + "=" + value + "=" + rest) == Str(value) by {
      ExplodeAfterPiece('=', name, value + "=" + rest);
      ExplodeAfterPiece('=', value, rest);
      assert name + "=" + value + "=" + rest == name + ['='] + (value + ['='] + rest);
    }
  }

  /** `fetchCookie`: `explode("=", …)` of the cookie's string form has a second piece. */
  function FetchCookie(form: CookieForm, req: Request, cookiename: string): (r: bool)
    ensures r <==> '=' in form(req.cookies, cookiename)
  {
    |Explode('=', form(req.cookies, cookiename))| > 1
  }

  /** `fetchToken`: the token attribute is set. */
  function FetchToken(req: Request, tokenname: string): (r: bool)
    ensures r <==> tokenname in req.attributes && req.attributes[tokenname] != Null
  {
    Attribute(req, tokenname) != Null
  }

  /**
   * `fetchClaim`: `array_key_exists` finds the claim in the token (an
   * array key or an object property; any other value makes it return
   * null), and then `isset($token->claim)` holds, which only an object
   * with a non-null property satisfies.
   */
  function FetchClaim(req: Request, tokenname: string, claimname: string): (r: bool)
    ensures r <==> var t := Attribute(req, tokenname);
                   t.Obj? && claimname in t.props && t.props[claimname] != Null
    ensures Attribute(req, tokenname).Arr? ==> !r
  {
    var decoded := Attribute(req, tokenname);
    var keyExists := match decoded
      case Arr(m) => claimname in m
      case Obj(p) => claimname in p
      case _ => false;
    var propertySet := decoded.Obj? && claimname in decoded.props && decoded.props[claimname] != Null;
    keyExists && propertySet
  }

  /** The value of `$token->claim`: null for a missing property or a token that is not an object. */
  function Property(token: Value, name: string): Value {
    if token.Obj? && name in token.props then token.props[name] else Null
  }

  /** `validateToken`: the claim property is strictly the cookie form's second piece. */
  function ValidateToken(form: CookieForm, req: Request, cookiename: string, tokenname: string, claimname: string): (r: bool)
    ensures r && FetchCookie(form, req, cookiename) ==>
              Property(Attribute(req, tokenname), claimname).Str?
  {
    Property(Attribute(req, tokenname), claimname) == CookieSegment(form(req.cookies, cookiename))
  }

  /** All four checks of a protected route pass. */
  function Passes(o: Options, form: CookieForm, req: Request): (r: bool)
    ensures r ==> '=' in form(req.cookies, o.cookie)
    ensures r ==> var t := Attribute(req, o.token);
                  && t.Obj? && o.claim in t.props
                  && t.props[o.claim].Str?
                  && t.props[o.claim] == CookieSegment(form(req.cookies, o.cookie))
  {
    && FetchCookie(form, req, o.cookie)
    && FetchToken(req, o.token)
    && FetchClaim(req, o.token, o.claim)
    && ValidateToken(form, req, o.cookie, o.token, o.claim)
  }

  /**
   * The whole decision, whatever the request's method: a passthrough
   * path goes on, a protected path whose checks fail is answered with
   * the incoming response set to 401, anything else goes on.
   */
  function Decide(o: Options, form: CookieForm, req: Request, response: Response): (r: Reply)
    ensures r.Reject? ==> r.response == response.(status := 401)
    ensures r.Reject? ==>
              && !AnyRouteMatches(Normalize(req.path), AsList(o.passthrough))
              && AnyRouteMatches(Normalize(req.path), AsList(o.path))
  {
    var uri := Normalize(req.path);
    if AnyRouteMatches(uri, AsList(o.passthrough)) then Next
    else if AnyRouteMatches(uri, AsList(o.path)) && !Passes(o, form, req) then Reject(response.(status := 401))
    else Next
  }

  class XsrfProtection {
    var options: Options
    const cookieForm: CookieForm

    /** The constructor: every supplied option overrides its default, the rest keep theirs. */
    constructor (settings: Settings, cookieForm: CookieForm)
      ensures options == Options(
                settings.path.GetOr(Defaults.path),
                settings.passthrough.GetOr(Defaults.passthrough),
                settings.cookie.GetOr(Defaults.cookie),
                settings.token.GetOr(Defaults.token),
                settings.claim.GetOr(Defaults.claim))
      ensures this.cookieForm == cookieForm
    {
      options := Options(
        settings.path.GetOr(Defaults.path),
        settings.passthrough.GetOr(Defaults.passthrough),
        settings.cookie.GetOr(Defaults.cookie),
        settings.token.GetOr(Defaults.token),
        settings.claim.GetOr(Defaults.claim));
      this.cookieForm := cookieForm;
    }

    /** `__invoke`: the gate, with its loops over passthrough and protected routes. */
    method Invoke(req: Request, response: Response) returns (r: Reply)
      ensures r == Decide(options, cookieForm, req, response)
    {
      var uri := Normalize(req.path);

      var passedThrough := FindMatch(uri, AsList(options.passthrough));
      if passedThrough {
        return Next;
      }

      var cookiename := GetCookie();
      var tokenname := GetToken();
      var claimname := GetClaim();

      var paths := AsList(options.path);
      var i := 0;
      while i < |paths|
        invariant 0 <= i <= |paths|
        invariant AnyRouteMatches(uri, paths[..i]) ==> Passes(options, cookieForm, req)
      {
        if RouteMatches(uri, paths[i]) {
          if !FetchCookie(cookieForm, req, cookiename) {
            return Reject(response.(status := 401));
          }
          if !FetchToken(req, tokenname) {
            return Reject(response.(status := 401));
          }
          if !FetchClaim(req, tokenname, claimname) {
            return Reject(response.(status := 401));
          }
          if !ValidateToken(cookieForm, req, cookiename, tokenname, claimname) {
            return Reject(response.(status := 401));
          }
        }
        assert paths[..i + 1] == paths[..i] + [paths[i]];
        i := i + 1;
      }
      assert paths[..i] == paths;
      return Next;
    }

    function GetPath(): (r: Routes)
      reads this
      ensures r == options.path
    {
      options.path
    }

    method SetPath(path: Routes)
      modifies this
      ensures options == old(options).(path := path)
      ensures GetPath() == path
    {
      options := options.(path := path);
    }

    function GetPassthrough(): (r: Routes)
      reads this
      ensures r == options.passthrough
    {
      options.passthrough
    }

    method SetPassthrough(passthrough: Routes)
      modifies this
      ensures options == old(options).(passthrough := passthrough)
      ensures GetPassthrough() == passthrough
    {
      options := options.(passthrough := passthrough);
    }

    function GetCookie(): (r: string)
      reads this
      ensures r == options.cookie
    {
      options.cookie
    }

    method SetCookie(cookie: string)
      modifies this
      ensures options == old(options).(cookie := cookie)
      ensures GetCookie() == cookie
    {
      options := options.(cookie := cookie);
    }

    function GetToken(): (r: string)
      reads this
      ensures r == options.token
    {
      options.token
    }

    method SetToken(token: string)
      modifies this
      ensures options == old(options).(token := token)
      ensures GetToken() == token
    {
      options := options.(token := token);
    }

    function GetClaim(): (r: string)
      reads this
      ensures r == options.claim
    {
      options.claim
    }

    method SetClaim(claim: string)
      modifies this
      ensures options == old(options).(claim := claim)
      ensures GetClaim() == claim
    {
      options := options.(claim := claim);
    }
  }
}
