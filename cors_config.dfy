/**
 * The CORS configuration helper `getAllowedOrigins`: a list of allowed
 * origins, each an exact origin string or, outside production, the pattern
 * for any port on `http://localhost`. The environment variables it reads are
 * a parameter. The HTTP server builds its own list (module `Server`) and does
 * not use this helper.
 */
module CorsConfig {
  import opened Common

  /** One entry of the origin list: an exact string, or the regular expression `^http://localhost:\d+$`. */
  datatype OriginRule = Exact(origin: string) | LocalhostAnyPort

  /** The environment variables the helper reads; an unset variable is `None`. */
  datatype Env = Env(frontendUrl: Option<string>, renderUrl: Option<string>, netlifyUrl: Option<string>,
                     vercelUrl: Option<string>, nodeEnv: Option<string>)

  const LocalhostPrefix := "http://localhost:"

  /** The local origins every configuration allows, in this order. */
  const BaseOrigins: seq<string> :=
    ["http://localhost:3000", "http://localhost:5000", "http://localhost:5173", "https://localhost:5000"]

  predicate IsProduction(env: Env)
  {
    env.nodeEnv == Some("production")
  }

  /** `[s]` when `s` is truthy, `[]` otherwise: one element of `[...].filter(Boolean)`. */
  function IfSet(s: Option<string>): (r: seq<string>)
    ensures Truthy(s) ==> r == [s.value]
    ensures !Truthy(s) ==> r == []
  {
    if Truthy(s) then [s.value] else []
  }

  /**
   * The deployment origins: `FRONTEND_URL`, `RENDER_EXTERNAL_URL` and
   * `NETLIFY_URL` as given, then `https://` followed by `VERCEL_URL`; every
   * unset or empty variable is dropped.
   */
  function DeploymentOrigins(env: Env): (r: seq<string>)
    ensures |r| <= 4
    ensures forall k :: 0 <= k < |r| ==> r[k] != ""
    ensures forall o :: o in r <==> || (Truthy(env.frontendUrl) && o == env.frontendUrl.value)
                                     || (Truthy(env.renderUrl) && o == env.renderUrl.value)
                                     || (Truthy(env.netlifyUrl) && o == env.netlifyUrl.value)
                                     || (Truthy(env.vercelUrl) && o == "https://" + env.vercelUrl.value)
  {
    IfSet(env.frontendUrl) + IfSet(env.renderUrl) + IfSet(env.netlifyUrl)
    + (if Truthy(env.vercelUrl) then ["https://" + env.vercelUrl.value] else [])
  }

  /** Each origin string as an exact rule. */
  function AsRules(origins: seq<string>): (r: seq<OriginRule>)
    ensures |r| == |origins|
    ensures forall k :: 0 <= k < |r| ==> r[k] == Exact(origins[k])
  {
    seq(|origins|, k requires 0 <= k < |origins| => Exact(origins[k]))
  }

  /**
   * `getAllowedOrigins()`: the four local origins, then the deployment
   * origins; outside production the any-port localhost pattern comes last.
   */
  function GetAllowedOrigins(env: Env): (r: seq<OriginRule>)
    ensures |r| >= 4 && r[..4] == AsRules(BaseOrigins)
    ensures IsProduction(env) ==> r == AsRules(BaseOrigins + DeploymentOrigins(env))
    ensures !IsProduction(env) ==> r == AsRules(BaseOrigins + DeploymentOrigins(env)) + [LocalhostAnyPort]
  {
    var exact := AsRules(BaseOrigins + DeploymentOrigins(env));
    assert exact[..4] == AsRules(BaseOrigins);
    if IsProduction(env) then exact else exact + [LocalhostAnyPort]
  }

  /** `\d+`: one or more ASCII digits. */
  predicate IsPort(s: string)
  {
    |s| > 0 && forall k :: 0 <= k < |s| ==> '0' <= s[k] <= '9'
  }

  /** `/^http:\/\/localhost:\d+$/.test(o)`. */
  predicate MatchesLocalhostPort(o: string)
  {
    var n := |LocalhostPrefix|;
    |o| > n && o[..n] == LocalhostPrefix && IsPort(o[n..])
  }

  /** The pattern matches exactly `http://localhost:` followed by a port. */
  lemma MatchesLocalhostPortIff(o: string)
    ensures MatchesLocalhostPort(o) <==> exists port :: IsPort(port) && o == LocalhostPrefix + port
  {
    var n := |LocalhostPrefix|;
    if MatchesLocalhostPort(o) {
      assert o == LocalhostPrefix + o[n..];
    }
  }

  /** Whether one rule lets `origin` through. */
  predicate RuleAllows(rule: OriginRule, origin: string)
  {
    match rule
    case Exact(s) => origin == s
    case LocalhostAnyPort => MatchesLocalhostPort(origin)
  }

  /** The list lets `origin` through when some rule does. */
  predicate Allows(rules: seq<OriginRule>, origin: string)
  {
    exists k :: 0 <= k < |rules| && RuleAllows(rules[k], origin)
  }

  /** An exact-only list lets through exactly its own strings. */
  lemma ExactRulesAllowListed(origins: seq<string>, origin: string)
    ensures Allows(AsRules(origins), origin) <==> origin in origins
  {
    var r := AsRules(origins);
    if origin in origins {
      var k :| 0 <= k < |origins| && origins[k] == origin;
      assert RuleAllows(r[k], origin);
    }
  }

  /** In production no pattern is listed: exactly the local and deployment origins are let through. */
  lemma ProductionIsExact(env: Env, origin: string)
    requires IsProduction(env)
    ensures forall k :: 0 <= k < |GetAllowedOrigins(env)| ==> GetAllowedOrigins(env)[k].Exact?
    ensures Allows(GetAllowedOrigins(env), origin) <==> origin in BaseOrigins || origin in DeploymentOrigins(env)
  {
    ExactRulesAllowListed(BaseOrigins + DeploymentOrigins(env), origin);
  }

  /** Outside production every port of `http://localhost` is let through, listed or not. */
  lemma DevelopmentAllowsAnyLocalhostPort(env: Env, port: string)
    requires !IsProduction(env) && IsPort(port)
    ensures Allows(GetAllowedOrigins(env), LocalhostPrefix + port)
  {
    var r := GetAllowedOrigins(env);
    MatchesLocalhostPortIff(LocalhostPrefix + port);
    assert RuleAllows(r[|r| - 1], LocalhostPrefix + port);
  }

  /**
   * Outside production the list lets through exactly the listed origins and
   * the `http://localhost` ports.
   */
  lemma DevelopmentAllows(env: Env, origin: string)
    requires !IsProduction(env)
    ensures Allows(GetAllowedOrigins(env), origin) <==>
            origin in BaseOrigins || origin in DeploymentOrigins(env) || MatchesLocalhostPort(origin)
  {
    var exact := AsRules(BaseOrigins + DeploymentOrigins(env));
    var r := GetAllowedOrigins(env);
    ExactRulesAllowListed(BaseOrigins + DeploymentOrigins(env), origin);
    if origin in BaseOrigins + DeploymentOrigins(env) {
      var k :| 0 <= k < |exact| && RuleAllows(exact[k], origin);
      assert RuleAllows(r[k], origin);
    }
    if MatchesLocalhostPort(origin) {
      assert RuleAllows(r[|r| - 1], origin);
    }
    if Allows(r, origin) {
      var k :| 0 <= k < |r| && RuleAllows(r[k], origin);
      if k < |exact| {
        assert RuleAllows(exact[k], origin);
      }
    }
  }

  /**
   * The pattern covers plain HTTP only: `https://localhost:5000` is let
   * through in every configuration because it is listed, never because of
   * the pattern.
   */
  lemma SecureLocalhostIsListed(env: Env)
    ensures !MatchesLocalhostPort("https://localhost:5000")
    ensures Allows(GetAllowedOrigins(env), "https://localhost:5000")
  {
    var r := GetAllowedOrigins(env);
    assert "https://localhost:5000"[..|LocalhostPrefix|][4] != LocalhostPrefix[4];
    assert RuleAllows(r[3], "https://localhost:5000");
  }
}
