/** The `authorized` callback of the page middleware (middleware.ts):
    which paths need a session token. */
module AuthMiddleware {
  import opened Common

  /** Paths open without a token: everything under /api/auth, the pages
      "/", "/auth/signin" and "/auth/register" by exact match, and every path
      starting with /auth/forgot-password or /auth/reset-password. */
  predicate IsPublic(pathname: string) {
    || StartsWith(pathname, "/api/auth")
    || pathname == "/"
    || pathname == "/auth/signin"
    || pathname == "/auth/register"
    || StartsWith(pathname, "/auth/forgot-password")
    || StartsWith(pathname, "/auth/reset-password")
  }

  function Authorized(pathname: string, hasToken: bool): (ok: bool)
    ensures ok <==> IsPublic(pathname) || hasToken
  {
    if IsPublic(pathname) then true else hasToken
  }

  /** Under /api/auth no token is ever needed. */
  lemma {:induction false} AuthApiAlwaysOpen(rest: string)
    ensures Authorized("/api/auth" + rest, false)
  {
    assert ("/api/auth" + rest)[..9] == "/api/auth";
  }

  /** The sign-in page is public only by exact equality: a path below it
      needs a token. */
  lemma {:induction false} SignInSubpathNeedsToken()
    ensures !Authorized("/auth/signin/x", false)
    ensures Authorized("/auth/signin/x", true)
  {
    var p := "/auth/signin/x";
    assert |p| == 14;
    assert p[..9][2] == 'u' != "/api/auth"[2];
  }

  /** Reset-password links with a token in the path are public. */
  lemma {:induction false} ResetLinksOpen(token: string)
    ensures Authorized("/auth/reset-password/" + token, false)
  {
    assert ("/auth/reset-password/" + token)[..20] == "/auth/reset-password";
  }
}
