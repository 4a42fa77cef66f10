/**
 * Route protection: the `authorized` callback and the matcher that
 * decides where the middleware runs at all.
 */
module Middleware {
  /** The `authorized` callback: the two protected prefixes need a token. */
  predicate Authorized(path: string, hasToken: bool)
  {
    if "/app/result" <= path || "/account" <= path then hasToken else true
  }

  /** The matcher `["/app/result/:path*", "/account/:path*"]`: the path itself or anything below it. */
  predicate Matched(path: string)
  {
    path == "/app/result" || "/app/result/" <= path || path == "/account" || "/account/" <= path
  }

  /** A request is let through unless the middleware runs and the callback refuses it. */
  predicate Admitted(path: string, hasToken: bool)
  {
    !Matched(path) || Authorized(path, hasToken)
  }

  /** On a protected prefix the callback is exactly "has a token"; elsewhere it always allows. */
  lemma AuthorizedCases(path: string, hasToken: bool)
    ensures ("/app/result" <= path || "/account" <= path) ==> (Authorized(path, hasToken) <==> hasToken)
    ensures !("/app/result" <= path || "/account" <= path) ==> Authorized(path, hasToken)
  {
  }

  /** Every path the matcher covers needs a token. */
  lemma MatchedPathsNeedToken(path: string)
    requires Matched(path)
    ensures Admitted(path, true) && !Admitted(path, false)
  {
    assert "/app/result" <= "/app/result/" && "/account" <= "/account/";
  }

  /**
   * The prefix test also covers "/accountx", but the matcher does not, so
   * such a path is admitted without a token.
   */
  lemma PrefixWiderThanMatcher()
    ensures !Authorized("/accountx", false)
    ensures !Matched("/accountx") && Admitted("/accountx", false)
  {
    assert "/account" == "/accountx"[..8];
    assert "/accountx"[8] != '/';
  }

  /** Without a token, exactly the matched paths are refused. */
  lemma RefusedIffMatched(path: string)
    ensures !Admitted(path, false) <==> Matched(path)
  {
    if Matched(path) {
      MatchedPathsNeedToken(path);
    }
  }
}
