/** auth/auth.go: the auth module's configuration and its in-place
    sanitiser. `net/url`'s `JoinPath(...).String()` on the base URL is the
    parameter `join`. */
module AuthConfig {
  import opened Base
  import opened Errors
  import opened Sentinels
  import Identity

  const DefaultSessionCookie: string := "_forge_auth"
  const DefaultSessionTTL: Duration := 12 * Hour
  const SecretRequired: string := "signing_secret is required"

  /** An OAuth2 provider's client settings. */
  datatype OAuthConf = OAuthConf(scopes: seq<string>, clientID: string, clientSecret: string)

  /** `auth.Config`. */
  class Config {
    var sessionTTL: Duration
    var sessionCookie: string
    var signingSecret: string
    var enabledKinds: seq<string>
    var loginPageRoute: string
    var registerPageRoute: string
    var google: OAuthConf
    var github: OAuthConf

    constructor (sessionTTL: Duration, sessionCookie: string, signingSecret: string, enabledKinds: seq<string>,
                 loginPageRoute: string, registerPageRoute: string, google: OAuthConf, github: OAuthConf)
      ensures this.sessionTTL == sessionTTL && this.sessionCookie == sessionCookie
      ensures this.signingSecret == signingSecret && this.enabledKinds == enabledKinds
      ensures this.loginPageRoute == loginPageRoute && this.registerPageRoute == registerPageRoute
      ensures this.google == google && this.github == github
    {
      this.sessionTTL := sessionTTL;
      this.sessionCookie := sessionCookie;
      this.signingSecret := signingSecret;
      this.enabledKinds := enabledKinds;
      this.loginPageRoute := loginPageRoute;
      this.registerPageRoute := registerPageRoute;
      this.google := google;
      this.github := github;
    }

    /** What a successful `sanitise` guarantees: a positive lifetime, a
        cookie name, a signing secret and at least one enabled kind. */
    predicate Sane()
      reads this
    {
      sessionTTL > 0 && sessionCookie != "" && signingSecret != "" && |enabledKinds| > 0
    }

    /** `Config.sanitise`: joins the non-empty page routes onto the base
        URL, defaults the lifetime and the cookie name, and only then
        requires the signing secret; the enabled kinds are defaulted only
        when the secret is there. The secret and the provider settings are
        never changed. */
    method Sanitise(join: string -> string) returns (err: Option<Err>)
      modifies this
      ensures registerPageRoute == if old(registerPageRoute) == "" then "" else join(old(registerPageRoute))
      ensures loginPageRoute == if old(loginPageRoute) == "" then "" else join(old(loginPageRoute))
      ensures sessionTTL == if old(sessionTTL) <= 0 then DefaultSessionTTL else old(sessionTTL)
      ensures sessionCookie == if old(sessionCookie) == "" then DefaultSessionCookie else old(sessionCookie)
      ensures signingSecret == old(signingSecret) && google == old(google) && github == old(github)
      ensures old(signingSecret) == "" ==>
                err == Some(SHint(CorePkg, InvalidInput, SecretRequired)) && enabledKinds == old(enabledKinds)
      ensures old(signingSecret) != "" ==>
                err.None? && enabledKinds == if old(enabledKinds) == [] then [Identity.DefaultUserKind] else old(enabledKinds)
      ensures err.None? <==> Sane()
    {
      if registerPageRoute != "" {
        registerPageRoute := join(registerPageRoute);
      }
      if loginPageRoute != "" {
        loginPageRoute := join(loginPageRoute);
      }
      if sessionTTL <= 0 {
        sessionTTL := DefaultSessionTTL;
      }
      if sessionCookie == "" {
        sessionCookie := DefaultSessionCookie;
      }
      if signingSecret == "" {
        return Some(SHint(CorePkg, InvalidInput, SecretRequired));
      }
      if |enabledKinds| == 0 {
        enabledKinds := [Identity.DefaultUserKind];
      }
      err := None;
    }
  }
}
