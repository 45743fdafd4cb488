/** webstd/scs.go and webstd/middleware_nosurf.go: how the session cookie and the CSRF cookie
    are configured. */
module Cookies {
  /** `http.SameSite`. */
  datatype SameSite = SameSiteDefault | SameSiteLax | SameSiteStrict | SameSiteNone

  /** The cookie attributes these functions set; `path` and `domain` are kept for the
      session cookie, whose other settings the configuration leaves alone. */
  datatype Cookie = Cookie(name: string, path: string, domain: string, maxAge: int,
                           httpOnly: bool, secure: bool, sameSite: SameSite, persist: bool)

  /** `scs.SessionManager`: the lifetime and cookie that `SetSessionSettings` configures,
      and the idle timeout, which it does not touch. */
  datatype SessionManager = SessionManager(lifetimeNanos: int, idleTimeoutNanos: int, cookie: Cookie)

  /** The `Session` configuration block. */
  datatype SessionConfig = SessionConfig(lifetimeNanos: int, cookieName: string, cookieSecure: bool,
                                         cookieSameSiteStr: string)

  const NoneWarning := "The session cookie is set with samesite none mode. This is prone to XSRF attacks! Reconsider configuring with samesite strict or samesite lax."

  /** The warning logged for a samesite string that is not recognised. */
  function UnknownModeWarning(s: string): string {
    "Could not parse cookie samesite mode \"" + s + "\". Using default mode."
  }

  /** The samesite switch: exact lower-case names only. */
  function ParseSameSite(s: string): (r: (SameSite, seq<string>))
    ensures r.0 == SameSiteLax <==> s == "lax"
    ensures r.0 == SameSiteStrict <==> s == "strict"
    ensures r.0 == SameSiteNone <==> s == "none"
    ensures r.0 == SameSiteDefault <==> s != "lax" && s != "strict" && s != "none"
    ensures |r.1| <= 1
    ensures r.1 == [] <==> s == "lax" || s == "strict"
    ensures r.0 == SameSiteNone ==> r.1 == [NoneWarning]
    ensures r.0 == SameSiteDefault ==> r.1 == [UnknownModeWarning(s)]
  {
    if s == "lax" then (SameSiteLax, [])
    else if s == "strict" then (SameSiteStrict, [])
    else if s == "none" then (SameSiteNone, [NoneWarning])
    else (SameSiteDefault, [UnknownModeWarning(s)])
  }

  /** `SetSessionSettings`: the configured manager and the warnings logged. */
  function SetSessionSettings(m: SessionManager, cfg: SessionConfig): (r: (SessionManager, seq<string>))
    ensures r.0.lifetimeNanos == cfg.lifetimeNanos
    ensures r.0.cookie.name == cfg.cookieName
    ensures r.0.cookie.httpOnly
    ensures r.0.cookie.secure == cfg.cookieSecure
    ensures (r.0.cookie.sameSite, r.1) == ParseSameSite(cfg.cookieSameSiteStr)
    ensures r.0.idleTimeoutNanos == m.idleTimeoutNanos
    ensures r.0.cookie.path == m.cookie.path && r.0.cookie.domain == m.cookie.domain
    ensures r.0.cookie.maxAge == m.cookie.maxAge && r.0.cookie.persist == m.cookie.persist
  {
    var (mode, warnings) := ParseSameSite(cfg.cookieSameSiteStr);
    var cookie := m.cookie.(name := cfg.cookieName, httpOnly := true, secure := cfg.cookieSecure, sameSite := mode);
    (m.(lifetimeNanos := cfg.lifetimeNanos, cookie := cookie), warnings)
  }

  /** Configuring twice with the same block changes nothing the second time. */
  lemma SetSessionSettingsIdempotent(m: SessionManager, cfg: SessionConfig)
    ensures SetSessionSettings(SetSessionSettings(m, cfg).0, cfg).0 == SetSessionSettings(m, cfg).0
  {
  }

  /** Case matters: an upper-case mode falls back to the default mode with a warning. */
  lemma UpperCaseModeIsDefault()
    ensures ParseSameSite("Lax") == (SameSiteDefault, [UnknownModeWarning("Lax")])
    ensures ParseSameSite("") == (SameSiteDefault, [UnknownModeWarning("")])
  {
  }

  /** The `CSRF` configuration block. */
  datatype CSRFConfig = CSRFConfig(maxAge: int, dev: bool)

  /** nosurf's `CookieName`. */
  const NosurfCookieName := "csrf_token"

  /** The base-cookie function `NewNosurfHandler` installs. */
  function BaseCookie(cfg: CSRFConfig): (c: Cookie)
    ensures c.secure <==> !cfg.dev
    ensures c.maxAge == cfg.maxAge
    ensures c.name == NosurfCookieName && c.path == "/" && c.httpOnly && c.sameSite == SameSiteLax
  {
    Cookie(NosurfCookieName, "/", "", cfg.maxAge, true, !cfg.dev, SameSiteLax, false)
  }

  /** Only the two configuration fields reach the CSRF cookie, each into its own attribute. */
  lemma BaseCookieDependsOnConfigOnly(a: CSRFConfig, b: CSRFConfig)
    ensures BaseCookie(a) == BaseCookie(b) <==> a == b
  {
  }
}
