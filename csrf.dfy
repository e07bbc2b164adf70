/** `ensureCsrf` (apps/api/src/middleware/csrf.js): the double-submit check
    that the CSRF header repeats the CSRF cookie. */
module Csrf {
  import opened Common
  import opened Http

  const DefaultCookieName: string := "csrf_token"
  const DefaultHeaderName: string := "x-csrf-token"

  /** The request passes when neither value is missing or empty and they
      are the same string. */
  predicate CsrfValid(header: Option<string>, cookie: Option<string>) {
    !(!Truthy(header) || !Truthy(cookie) || header != cookie)
  }

  /** Accepted exactly when the header is a non-empty string and the
      cookie holds that same string. */
  lemma CsrfValidMeaning(header: Option<string>, cookie: Option<string>)
    ensures CsrfValid(header, cookie) <==> header.Some? && header.value != "" && cookie == Some(header.value)
  {
  }

  /** An empty header or cookie counts as missing, even when both are empty. */
  lemma EmptyValuesRejected(v: Option<string>)
    ensures !CsrfValid(Some(""), v) && !CsrfValid(v, Some("")) && !CsrfValid(None, v) && !CsrfValid(v, None)
  {
  }

  /** Returns whether the request may proceed; on refusal the response is
      403 `{ message: "Invalid CSRF token" }`, otherwise the response is not
      touched. */
  method EnsureCsrf(req: Request, res: Response, cookieName: string, headerName: string) returns (ok: bool)
    modifies res
    ensures ok <==> CsrfValid(req.Header(headerName), req.Cookie(cookieName))
    ensures ok ==> res.State() == old(res.State())
    ensures !ok ==> res.State() == Replied(old(res.State()), 403, Message("Invalid CSRF token"))
  {
    var csrfHeader := req.Header(headerName);
    var csrfCookie := req.Cookie(cookieName);
    if !Truthy(csrfHeader) || !Truthy(csrfCookie) || csrfHeader != csrfCookie {
      res.Reply(403, Message("Invalid CSRF token"));
      return false;
    }
    return true;
  }
}
