/**
 * The CORS `origin` callback of server.js:25-54: whether a request's `Origin`
 * is let through. The environment variables `CORS_ORIGIN` and `NODE_ENV` are
 * inputs; a missing variable or header is `None`. The callback's error object
 * is modelled by the answer `false`, and the warning it logs is left out.
 */
module Cors {
  import opened Wrappers
  import opened Text

  /** The origins allowed whatever the environment says. */
  const DefaultOrigins: seq<string> := ["http://localhost:8080", "http://127.0.0.1:8080", "null"]

  const LocalhostPrefix: string := "http://localhost:"
  const LoopbackPrefix: string := "http://127.0.0.1:"

  /** `CORS_ORIGIN.split(',').map(o => o.trim())` when the variable is set and not empty. */
  function EnvOrigins(corsOrigin: Option<string>): (os: seq<string>)
    ensures corsOrigin.Some? && corsOrigin.value != "" ==> |os| == |Split(corsOrigin.value, {','})|
  {
    if corsOrigin.Some? && corsOrigin.value != "" then MapTrim(Split(corsOrigin.value, {','})) else []
  }

  /** `allowedOrigins`: the configured origins, then the defaults. */
  function AllowedOrigins(corsOrigin: Option<string>): seq<string>
  {
    EnvOrigins(corsOrigin) + DefaultOrigins
  }

  /** `NODE_ENV !== 'production'` */
  predicate IsDevelopment(nodeEnv: Option<string>)
  {
    nodeEnv != Some("production")
  }

  /** An origin on this machine, any port. */
  predicate IsLocalOrigin(origin: string)
  {
    StartsWith(origin, LocalhostPrefix) || StartsWith(origin, LoopbackPrefix)
  }

  /**
   * The callback's answer: an absent or empty origin passes; in development a
   * local origin passes; otherwise the origin must be in the allowed list.
   */
  function OriginAllowed(origin: Option<string>, corsOrigin: Option<string>, nodeEnv: Option<string>): (allowed: bool)
  {
    if origin.None? || origin.value == "" then true
    else if IsDevelopment(nodeEnv) && IsLocalOrigin(origin.value) then true
    else origin.value in AllowedOrigins(corsOrigin)
  }

  /** Requests without an origin, as from `file://` pages or tools, always pass. */
  lemma NoOriginAllowed(corsOrigin: Option<string>, nodeEnv: Option<string>)
    ensures OriginAllowed(None, corsOrigin, nodeEnv)
  {
  }

  /** Outside production, every localhost and 127.0.0.1 origin passes, whatever the list. */
  lemma DevelopmentAllowsLocal(origin: string, corsOrigin: Option<string>, nodeEnv: Option<string>)
    requires IsDevelopment(nodeEnv) && IsLocalOrigin(origin)
    ensures OriginAllowed(Some(origin), corsOrigin, nodeEnv)
  {
  }

  /** The three default origins always pass. */
  lemma DefaultsAllowed(origin: string, corsOrigin: Option<string>, nodeEnv: Option<string>)
    requires origin in DefaultOrigins
    ensures OriginAllowed(Some(origin), corsOrigin, nodeEnv)
  {
  }

  /** The configured list holds trimmed entries without commas. */
  lemma EnvOriginsTrimmed(corsOrigin: Option<string>, k: nat)
    requires k < |EnvOrigins(corsOrigin)|
    ensures IsTrimmed(EnvOrigins(corsOrigin)[k]) && ',' !in EnvOrigins(corsOrigin)[k]
  {
    var pieces := Split(corsOrigin.value, {','});
    assert ',' !in pieces[k];
    TrimKeepsOut(pieces[k], ',');
  }

  /** Each comma-separated entry of `CORS_ORIGIN`, once trimmed, passes in every environment. */
  lemma EnvEntryAllowed(corsOrigin: string, j: nat, nodeEnv: Option<string>)
    requires j < |Split(corsOrigin, {','})|
    ensures OriginAllowed(Some(Trim(Split(corsOrigin, {','})[j])), Some(corsOrigin), nodeEnv)
  {
    var o := Trim(Split(corsOrigin, {','})[j]);
    if o != "" {
      assert corsOrigin != "";
      assert EnvOrigins(Some(corsOrigin))[j] == o;
      assert AllowedOrigins(Some(corsOrigin))[j] == o;
    }
  }

  /** In production a present origin passes exactly when it is in the list, local or not. */
  lemma ProductionUsesList(origin: string, corsOrigin: Option<string>)
    requires origin != ""
    ensures OriginAllowed(Some(origin), corsOrigin, Some("production")) <==> origin in AllowedOrigins(corsOrigin)
  {
  }

  /** A localhost origin on another port than 8080 is refused in production unless configured. */
  lemma ProductionRejectsOtherLocalhost()
    ensures !OriginAllowed(Some("http://localhost:3000"), None, Some("production"))
  {
    assert AllowedOrigins(None) == DefaultOrigins;
    assert "http://localhost:3000"[17] != "http://localhost:8080"[17];
    assert "http://localhost:3000"[7] != "http://127.0.0.1:8080"[7];
    assert "http://localhost:3000" != "null";
  }

  /** Development only adds origins: whatever passes in production passes in any environment. */
  lemma DevelopmentWidens(origin: Option<string>, corsOrigin: Option<string>, nodeEnv: Option<string>)
    requires OriginAllowed(origin, corsOrigin, Some("production"))
    ensures OriginAllowed(origin, corsOrigin, nodeEnv)
  {
  }
}
