/** The CSRF decision of the backend's guardian middleware (app/main.py): which requests
 *  reach the route handlers and which are answered with 403 first. Header lookup is given
 *  as the looked-up values. */
module Guardian {
  import opened Common

  const LOCAL_FRONTEND := "http://localhost:5173"
  const DEPLOYED_FRONTEND := "https://data-pulse-eight.vercel.app"

  /** `origins`: the `FRONTEND_URL` setting (itself defaulting to the local address), the
   *  local development address and the deployed frontend. */
  function Origins(frontendUrl: Option<string>): (r: seq<string>)
    ensures |r| == 3 && LOCAL_FRONTEND in r && DEPLOYED_FRONTEND in r
    ensures frontendUrl.Some? ==> frontendUrl.value in r
  {
    [frontendUrl.GetOr(LOCAL_FRONTEND), LOCAL_FRONTEND, DEPLOYED_FRONTEND]
  }

  /** `CSRF_EXEMPT_PATHS`. */
  predicate Exempt(path: string)
  {
    path in {"/api/auth/login-email", "/api/auth/send-otp", "/api/auth/verify-otp", "/api/auth/google",
             "/api/auth/github/callback", "/api/auth/google/callback", "/"}
  }

  predicate StateChanging(httpMethod: string)
  {
    httpMethod in {"POST", "PUT", "PATCH", "DELETE"}
  }

  datatype Request = Request(httpMethod: string, path: string, origin: Option<string>, csrfToken: Option<string>)

  /** The request reaches the application, or is answered with 403 and this detail. */
  datatype Decision = Pass | Blocked(detail: string)

  const INVALID_ORIGIN := "CSRF blocked: Invalid Origin"
  const MISSING_TOKEN := "CSRF blocked: Missing X-CSRF-Token"

  /** An `Origin` header counts when it is present and non-empty. */
  predicate ForeignOrigin(origin: Option<string>, origins: seq<string>)
  {
    origin.Some? && origin.value != "" && origin.value !in origins
  }

  predicate MissingToken(token: Option<string>)
  {
    token.None? || token.value == ""
  }

  /** `guardian_middleware` up to `call_next`. */
  function Decide(req: Request, frontendUrl: Option<string>): (d: Decision)
    ensures req.path == "/ping" || !StateChanging(req.httpMethod) || Exempt(req.path) ==> d == Pass
    ensures d == Blocked(INVALID_ORIGIN) <==>
      req.path != "/ping" && StateChanging(req.httpMethod) && !Exempt(req.path)
      && ForeignOrigin(req.origin, Origins(frontendUrl))
    ensures d == Blocked(MISSING_TOKEN) <==>
      req.path != "/ping" && StateChanging(req.httpMethod) && !Exempt(req.path)
      && !ForeignOrigin(req.origin, Origins(frontendUrl)) && MissingToken(req.csrfToken)
    ensures d.Pass? || d == Blocked(INVALID_ORIGIN) || d == Blocked(MISSING_TOKEN)
  {
    if req.path == "/ping" then Pass
    else if StateChanging(req.httpMethod) && !Exempt(req.path) then
      if ForeignOrigin(req.origin, Origins(frontendUrl)) then Blocked(INVALID_ORIGIN)
      else if MissingToken(req.csrfToken) then Blocked(MISSING_TOKEN)
      else Pass
    else Pass
  }

  /** Any non-empty token is accepted: a protected request from an allowed or absent origin
   *  passes iff it carries a token, whatever its value. */
  lemma AnyTokenPasses(req: Request, frontendUrl: Option<string>)
    requires StateChanging(req.httpMethod) && !Exempt(req.path) && req.path != "/ping"
    requires !ForeignOrigin(req.origin, Origins(frontendUrl))
    ensures Decide(req, frontendUrl).Pass? <==> req.csrfToken.Some? && req.csrfToken.value != ""
  {
  }

  /** The origin check comes first: a foreign origin is refused even with a token. */
  lemma OriginCheckedFirst(req: Request, frontendUrl: Option<string>)
    requires StateChanging(req.httpMethod) && !Exempt(req.path) && req.path != "/ping"
    requires req.origin.Some? && req.origin.value != "" && req.origin.value !in Origins(frontendUrl)
    ensures Decide(req, frontendUrl) == Blocked(INVALID_ORIGIN)
  {
  }

  /** The two password-reset routes are not exempt: a `POST` without a token is refused even
   *  from the frontend's own origin. */
  lemma PasswordResetNeedsToken(frontendUrl: Option<string>)
    ensures Decide(Request("POST", "/api/auth/send-password-reset", Some(LOCAL_FRONTEND), None), frontendUrl)
         == Blocked(MISSING_TOKEN)
    ensures Decide(Request("POST", "/api/auth/reset-password", None, None), frontendUrl) == Blocked(MISSING_TOKEN)
  {
    assert !Exempt("/api/auth/send-password-reset");
    assert !Exempt("/api/auth/reset-password");
  }
}
