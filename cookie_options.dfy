/**
 * The cookie options used for the session cookies (`getCookieOptions`). They depend
 * on whether the process runs in production (`NODE_ENV === "production"`), on the
 * `isRefresh` flag and on the lifetime passed in; the `crossDomain` flag is
 * accepted and has no effect.
 */
module Cookies {
  import opened Js

  datatype CookieOptions = CookieOptions(
    httpOnly: bool,
    secure: bool,
    sameSite: string,
    maxAge: int,
    path: string)

  /** The optional flags argument; `None` is a flag left out (or the whole argument left out). */
  datatype Flags = Flags(crossDomain: Option<bool>, isRefresh: Option<bool>)

  /** The flags argument when the caller passes nothing: `= {}`. */
  const NoFlags: Flags := Flags(None, None)

  predicate IsProduction(nodeEnv: Option<string>) {
    nodeEnv == Some("production")
  }

  /** `getCookieOptions(maxAgeMs, flags)` with the environment's `NODE_ENV` as a parameter. */
  function GetCookieOptions(maxAgeMs: int, flags: Flags, nodeEnv: Option<string>): (o: CookieOptions)
    ensures o.httpOnly
    ensures o.maxAge == maxAgeMs
    ensures !IsProduction(nodeEnv) ==> !o.secure && o.sameSite == "lax" && o.path == "/"
    ensures IsProduction(nodeEnv) ==> o.secure && o.sameSite == "none"
    ensures o.path == "/auth/refresh" <==> IsProduction(nodeEnv) && flags.isRefresh == Some(true)
    ensures o.path in {"/", "/auth/refresh"}
  {
    var isRefresh := flags.isRefresh.GetOr(false);
    var isProd := IsProduction(nodeEnv);
    if !isProd then
      CookieOptions(httpOnly := true, secure := false, sameSite := "lax", maxAge := maxAgeMs, path := "/")
    else
      CookieOptions(
        httpOnly := true,
        secure := true,
        sameSite := "none",
        maxAge := maxAgeMs,
        path := if isRefresh then "/auth/refresh" else "/")
  }

  /** A `SameSite=None` cookie is always `Secure`, as browsers demand. */
  lemma SameSiteNoneIsSecure(maxAgeMs: int, flags: Flags, nodeEnv: Option<string>)
    ensures GetCookieOptions(maxAgeMs, flags, nodeEnv).sameSite == "none" ==> GetCookieOptions(maxAgeMs, flags, nodeEnv).secure
  {
  }

  /** The `crossDomain` flag never changes the result. */
  lemma CrossDomainIgnored(maxAgeMs: int, c1: Option<bool>, c2: Option<bool>, isRefresh: Option<bool>, nodeEnv: Option<string>)
    ensures GetCookieOptions(maxAgeMs, Flags(c1, isRefresh), nodeEnv) == GetCookieOptions(maxAgeMs, Flags(c2, isRefresh), nodeEnv)
  {
  }

  /** A flag left out behaves as `false`; so does leaving out the whole argument. */
  lemma OmittedFlagsAreFalse(maxAgeMs: int, crossDomain: Option<bool>, nodeEnv: Option<string>)
    ensures GetCookieOptions(maxAgeMs, Flags(crossDomain, None), nodeEnv) == GetCookieOptions(maxAgeMs, Flags(crossDomain, Some(false)), nodeEnv)
    ensures GetCookieOptions(maxAgeMs, NoFlags, nodeEnv) == GetCookieOptions(maxAgeMs, Flags(Some(false), Some(false)), nodeEnv)
  {
  }

  /** Outside production the options do not depend on the flags at all. */
  lemma DevelopmentIgnoresFlags(maxAgeMs: int, f1: Flags, f2: Flags, nodeEnv: Option<string>)
    requires !IsProduction(nodeEnv)
    ensures GetCookieOptions(maxAgeMs, f1, nodeEnv) == GetCookieOptions(maxAgeMs, f2, nodeEnv)
  {
  }

  /**
   * Production is the exact value "production": an unset `NODE_ENV`, or one spelt
   * with another case, gives the development options.
   */
  lemma ProductionIsExact(maxAgeMs: int, flags: Flags)
    ensures !IsProduction(None) && !IsProduction(Some("Production")) && IsProduction(Some("production"))
    ensures GetCookieOptions(maxAgeMs, flags, None) == GetCookieOptions(maxAgeMs, flags, Some("development"))
  {
    assert "Production"[0] != "production"[0];
  }
}
