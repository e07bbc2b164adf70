/** The parts of an Express request and response that the auth handlers and
    middleware use. The request's cookie header is taken as already parsed
    into a name-to-value map (`getCookie(req, name)` is a lookup in it); the
    module that parses it, apps/api/src/common/Util.js, is not part of this
    model. Header names are the lower-case keys Express exposes. */
module Http {
  import opened Common
  import opened CookiePolicy

  /** The JSON body fields the auth routes read; a missing body (`req.body`
      undefined) reads like an empty one. */
  datatype RequestBody = RequestBody(username: Option<string>, password: Option<string>, refreshToken: Option<string>)

  /** `req.user` as the access-token middleware sets it. */
  datatype RequestUser = RequestUser(id: Option<string>, username: Option<string>)

  class Request {
    const body: Option<RequestBody>
    const headers: map<string, string>
    const cookies: map<string, string>
    var user: Option<RequestUser>

    constructor (body: Option<RequestBody>, headers: map<string, string>, cookies: map<string, string>)
      ensures this.body == body && this.headers == headers && this.cookies == cookies && user.None?
    {
      this.body := body;
      this.headers := headers;
      this.cookies := cookies;
      user := None;
    }

    /** `(req.body || {})` */
    function Body(): RequestBody {
      if body.Some? then body.value else RequestBody(None, None, None)
    }

    /** `req.headers[name]` */
    function Header(name: string): Option<string> {
      EnvGet(headers, name)
    }

    /** `getCookie(req, name)` */
    function Cookie(name: string): Option<string> {
      EnvGet(cookies, name)
    }
  }

  /** The JSON bodies the routes answer with. */
  datatype Body = Message(message: string) | AccessToken(accessToken: string)

  /** One `res.cookie(name, value, options)` or `res.clearCookie(name, options)`. */
  datatype CookieOp =
    | SetCookie(name: string, value: string, options: CookieOptions)
    | ClearCookie(name: string, options: CookieOptions)
  {
    function Name(): string {
      match this
      case SetCookie(n, _, _) => n
      case ClearCookie(n, _) => n
    }
  }

  /** Everything a handler has written to the response so far. `status` is
      `None` until `res.status` is called. */
  datatype Written = Written(status: Option<int>, body: Option<Body>, ended: bool, cookieOps: seq<CookieOp>)

  /** `res.status(status).json(body).end()` */
  function Replied(w: Written, status: int, body: Body): (r: Written)
    ensures r.status == Some(status) && r.body == Some(body) && r.ended
    ensures r.cookieOps == w.cookieOps
  {
    Written(Some(status), Some(body), true, w.cookieOps)
  }

  class Response {
    var status: Option<int>
    var body: Option<Body>
    var ended: bool
    var cookieOps: seq<CookieOp>

    constructor ()
      ensures State() == Written(None, None, false, [])
    {
      status, body, ended, cookieOps := None, None, false, [];
    }

    function State(): Written
      reads this
    {
      Written(status, body, ended, cookieOps)
    }

    method Cookie(name: string, value: string, options: CookieOptions)
      modifies this
      ensures State() == old(State()).(cookieOps := old(cookieOps) + [SetCookie(name, value, options)])
    {
      cookieOps := cookieOps + [SetCookie(name, value, options)];
    }

    method ClearCookie(name: string, options: CookieOptions)
      modifies this
      ensures State() == old(State()).(cookieOps := old(cookieOps) + [CookieOp.ClearCookie(name, options)])
    {
      cookieOps := cookieOps + [CookieOp.ClearCookie(name, options)];
    }

    /** `res.status(code).json(payload).end()` */
    method Reply(code: int, payload: Body)
      modifies this
      ensures State() == Replied(old(State()), code, payload)
    {
      status, body, ended := Some(code), Some(payload), true;
    }
  }
}
