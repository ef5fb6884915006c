/**
 * The read-only view of a PSR-7 request the gates consume, and the
 * response they hand back.
 */
module Http {
  import opened Php

  /**
   * A request snapshot: `verb` is the HTTP method. `cookies` holds the cookies parsed from the
   * Cookie header; `headers` maps a header name to its values, keyed as
   * the request's `getHeader` looks them up; `body` is the parsed body
   * (no parsed body is the empty map); `attributes` are the request
   * attributes set by earlier middleware.
   */
  datatype Request = Request(
    verb: string,
    path: string,
    cookies: map<string, string>,
    headers: map<string, seq<string>>,
    body: map<string, Value>,
    attributes: map<string, Value>)

  datatype Response = Response(status: int, headers: map<string, seq<string>>, body: string)

  /** The response a fresh 401 from the response factory is. */
  const Unauthorized := Response(401, map[], "")

  /** `getHeader(name)`: the header's values, none when it is absent. */
  function HeaderValues(req: Request, name: string): seq<string> {
    if name in req.headers then req.headers[name] else []
  }

  /** `$params[name] ?? null` over the parsed body. */
  function BodyParam(req: Request, name: string): Value {
    if name in req.body then req.body[name] else Null
  }

  /** `getAttribute(name)`: null when the attribute is absent. */
  function Attribute(req: Request, name: string): Value {
    if name in req.attributes then req.attributes[name] else Null
  }
}
