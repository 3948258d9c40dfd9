/**
 * Runtime configuration read from the environment: trimmed string values with
 * fallbacks, typed values through abstract parsers, comma-separated lists.
 * The float32 QPS setting is not modelled.
 */
module Config {
  import opened Wrappers
  import opened Strings

  /** The process environment; an unset variable reads as "". */
  type Env = map<string, string>

  /** Instants and durations in nanoseconds, as Go's `time.Time` and `time.Duration`; the zero `time.Time` is 0. */
  type Time = int

  const Second: int := 1_000_000_000
  const Minute: int := 60 * Second
  const Hour: int := 60 * Minute

  function Getenv(env: Env, key: string): string {
    if key in env then env[key] else ""
  }

  datatype ServerConfig = ServerConfig(
    address: string, readTimeout: int, writeTimeout: int, allowedOrigins: seq<string>)

  datatype KubeConfig = KubeConfig(
    kubeconfigPath: string, context: string, burst: int, insecureSkipTLSVerify: bool)

  datatype AuthConfig = AuthConfig(
    enableDevBypass: bool, sessionName: string, sessionSecret: string, sessionTTL: int,
    sessionSecure: bool, sessionDomain: string,
    oidcIssuerURL: string, oidcClientID: string, oidcClientSecret: string,
    oidcRedirectURL: string, oidcScopes: seq<string>)

  datatype Config = Config(env: string, server: ServerConfig, kube: KubeConfig, auth: AuthConfig)

  /** `getEnv`: the trimmed value when it is not blank, otherwise the fallback. */
  function GetEnv(env: Env, key: string, fallback: string): (r: string)
    ensures TrimSpace(Getenv(env, key)) != "" ==> r == TrimSpace(Getenv(env, key))
    ensures TrimSpace(Getenv(env, key)) == "" ==> r == fallback
  {
    var value := TrimSpace(Getenv(env, key));
    if value != "" then value else fallback
  }

  /** A value read from the environment never carries surrounding white space unless the fallback does. */
  lemma GetEnvTrimmed(env: Env, key: string, fallback: string)
    requires TrimSpace(fallback) == fallback
    ensures TrimSpace(GetEnv(env, key, fallback)) == GetEnv(env, key, fallback)
  {
    TrimSpaceIdempotent(Getenv(env, key));
  }

  /**
   * `getInt`, `getBool` and `getDuration`: the raw, untrimmed value goes to the
   * parser (`strconv.Atoi`, `strconv.ParseBool`, `time.ParseDuration`); an unset
   * or empty variable, or one the parser rejects, gives the fallback.
   */
  function GetParsed<T>(env: Env, key: string, fallback: T, parse: string -> Option<T>): (r: T)
    ensures Getenv(env, key) == "" || parse(Getenv(env, key)).None? ==> r == fallback
    ensures Getenv(env, key) != "" && parse(Getenv(env, key)).Some? ==> r == parse(Getenv(env, key)).value
  {
    var value := Getenv(env, key);
    if value != "" then
      match parse(value)
      case Some(parsed) => parsed
      case None => fallback
    else fallback
  }

  /** Accepts exactly one text, as a strict parser such as `strconv.Atoi` does for surrounding white space. */
  function OnlyText(text: string): string -> Option<int> {
    s => if s == text then Some(1) else None
  }

  /**
   * Padding a variable is invisible to a string setting, which trims, but not
   * to a parsed setting, which hands the padded text to its parser: a parser
   * that accepts the trimmed text can reject the padded one.
   */
  lemma PaddingReachesParser(env: Env, key: string, fallback: string)
    requires Getenv(env, key) != TrimSpace(Getenv(env, key))
    ensures var trimmed := env[key := TrimSpace(Getenv(env, key))];
      && GetEnv(env, key, fallback) == GetEnv(trimmed, key, fallback)
      && GetParsed(env, key, 0, OnlyText(TrimSpace(Getenv(env, key)))) == 0
      && (TrimSpace(Getenv(env, key)) != "" ==> GetParsed(trimmed, key, 0, OnlyText(TrimSpace(Getenv(env, key)))) == 1)
  {
    TrimSpaceIdempotent(Getenv(env, key));
  }

  predicate IsComma(c: char) { c == ',' }

  /** Non-empty, with no white space at either end. */
  predicate Trimmed(x: string) {
    x != "" && !IsSpace(x[0]) && !IsSpace(x[|x| - 1])
  }

  /** The pieces that are not blank, trimmed, in their original order. */
  function NonBlank(parts: seq<string>): (r: seq<string>)
    ensures |r| <= |parts|
    ensures forall x | x in r :: Trimmed(x)
  {
    if |parts| == 0 then []
    else
      var t := TrimSpace(parts[|parts| - 1]);
      NonBlank(parts[..|parts| - 1]) + (if t == "" then [] else [t])
  }

  /** What `splitCSV` returns: the non-blank pieces, or `["*"]` when there are none. */
  function CsvValues(value: string): (r: seq<string>)
    ensures |r| >= 1
  {
    var kept := NonBlank(Split(value, IsComma));
    if kept == [] then ["*"] else kept
  }

  /** `splitCSV`: split on ',' and keep the trimmed non-blank parts. */
  method SplitCSV(value: string) returns (result: seq<string>)
    ensures result == CsvValues(value)
  {
    var parts := Split(value, IsComma);
    result := [];
    for i := 0 to |parts|
      invariant result == NonBlank(parts[..i])
    {
      assert parts[..i + 1][..i] == parts[..i];
      var trimmed := TrimSpace(parts[i]);
      if trimmed == "" {
        continue;
      }
      result := result + [trimmed];
    }
    assert parts[..|parts|] == parts;
    if |result| == 0 {
      return ["*"];
    }
  }

  /** A string is kept exactly when it is the non-blank trimming of some piece. */
  lemma {:induction false} NonBlankMembership(parts: seq<string>, x: string)
    ensures x in NonBlank(parts) <==> x != "" && exists i | 0 <= i < |parts| :: TrimSpace(parts[i]) == x
  {
    if |parts| > 0 {
      var n := |parts| - 1;
      var init := parts[..n];
      var t := TrimSpace(parts[n]);
      assert NonBlank(parts) == NonBlank(init) + (if t == "" then [] else [t]);
      NonBlankMembership(init, x);
      LastPieceTrims(parts, init, x);
    }
  }

  /** Some piece trims to `x` iff one before the last does, or the last does. */
  lemma LastPieceTrims(parts: seq<string>, init: seq<string>, x: string)
    requires |parts| > 0 && init == parts[..|parts| - 1]
    ensures (exists i | 0 <= i < |parts| :: TrimSpace(parts[i]) == x) <==>
      (exists i | 0 <= i < |init| :: TrimSpace(init[i]) == x) || TrimSpace(parts[|parts| - 1]) == x
  {
    var n := |init|;
    if exists i | 0 <= i < |parts| :: TrimSpace(parts[i]) == x {
      var i :| 0 <= i < |parts| && TrimSpace(parts[i]) == x;
      if i < n {
        assert init[i] == parts[i];
      }
    }
    if exists i | 0 <= i < n :: TrimSpace(init[i]) == x {
      var i :| 0 <= i < n && TrimSpace(init[i]) == x;
      assert parts[i] == init[i];
    }
  }

  /** Nothing is kept exactly when every piece is blank. */
  lemma {:induction false} NonBlankEmptyIffAllBlank(parts: seq<string>)
    ensures NonBlank(parts) == [] <==> forall i | 0 <= i < |parts| :: TrimSpace(parts[i]) == ""
  {
    if |parts| > 0 {
      var init := parts[..|parts| - 1];
      NonBlankEmptyIffAllBlank(init);
      if forall i | 0 <= i < |parts| :: TrimSpace(parts[i]) == "" {
        assert forall i | 0 <= i < |init| :: TrimSpace(init[i]) == "" by {
          forall i | 0 <= i < |init| ensures TrimSpace(init[i]) == "" {
            assert init[i] == parts[i];
          }
        }
      }
    }
  }

  /** `["*"]` comes back when every comma-separated part is blank, in particular for "". */
  lemma CsvWildcardWhenBlank(value: string)
    requires forall i | 0 <= i < |Split(value, IsComma)| :: TrimSpace(Split(value, IsComma)[i]) == ""
    ensures CsvValues(value) == ["*"]
  {
    NonBlankEmptyIffAllBlank(Split(value, IsComma));
  }

  /** Trimming a piece with no comma in it leaves no comma. */
  lemma TrimmedPieceCommaFree(p: string)
    requires forall k | 0 <= k < |p| :: !IsComma(p[k])
    ensures forall k | 0 <= k < |TrimSpace(p)| :: TrimSpace(p)[k] != ','
  {
    TrimSpaceCuts(p);
    var a := TrimStart(p);
    var t := TrimSpace(p);
    forall k | 0 <= k < |t| ensures t[k] != ',' {
      assert t[k] == p[a + k];
    }
  }

  /** No value in the list contains a comma, carries surrounding white space, or is blank. */
  lemma CsvValuesClean(value: string, x: string)
    requires x in CsvValues(value)
    ensures Trimmed(x)
    ensures forall k | 0 <= k < |x| :: x[k] != ','
  {
    var parts := Split(value, IsComma);
    if x != "*" {
      assert x in NonBlank(parts);
      NonBlankMembership(parts, x);
      var i :| 0 <= i < |parts| && TrimSpace(parts[i]) == x;
      assert parts[i] in parts;
      TrimmedPieceCommaFree(parts[i]);
    }
  }

  /** `Load`, with the integer, boolean and duration parsers as parameters. */
  function Load(env: Env, atoi: string -> Option<int>, parseBool: string -> Option<bool>,
                parseDuration: string -> Option<int>): (r: Config)
    ensures r.env != "" && r.server.address != "" && r.auth.sessionName != "" && r.auth.sessionSecret != ""
    ensures |r.server.allowedOrigins| >= 1 && |r.auth.oidcScopes| >= 1
  {
    Config(
      GetEnv(env, "KZ_ENV", "development"),
      ServerConfig(
        GetEnv(env, "KZ_ADDRESS", ":8080"),
        GetParsed(env, "KZ_READ_TIMEOUT", 15 * Second, parseDuration),
        GetParsed(env, "KZ_WRITE_TIMEOUT", 15 * Second, parseDuration),
        CsvValues(GetEnv(env, "KZ_ALLOWED_ORIGINS", "*"))),
      KubeConfig(
        GetEnv(env, "KZ_KUBECONFIG", Getenv(env, "KUBECONFIG")),
        GetEnv(env, "KZ_KUBE_CONTEXT", ""),
        GetParsed(env, "KZ_KUBE_BURST", 40, atoi),
        GetParsed(env, "KZ_KUBE_INSECURE", false, parseBool)),
      AuthConfig(
        GetParsed(env, "KZ_AUTH_DEV_BYPASS", true, parseBool),
        GetEnv(env, "KZ_AUTH_SESSION_NAME", "kz_session"),
        GetEnv(env, "KZ_AUTH_SESSION_SECRET", "dev-secret-change-me"),
        GetParsed(env, "KZ_AUTH_SESSION_TTL", 24 * Hour, parseDuration),
        GetParsed(env, "KZ_AUTH_SESSION_SECURE", true, parseBool),
        GetEnv(env, "KZ_AUTH_SESSION_DOMAIN", ""),
        GetEnv(env, "KZ_AUTH_OIDC_ISSUER", ""),
        GetEnv(env, "KZ_AUTH_OIDC_CLIENT_ID", ""),
        GetEnv(env, "KZ_AUTH_OIDC_CLIENT_SECRET", ""),
        GetEnv(env, "KZ_AUTH_OIDC_REDIRECT_URL", ""),
        CsvValues(GetEnv(env, "KZ_AUTH_OIDC_SCOPES", "openid,profile,email"))))
  }

  /** With nothing set, every setting takes its default, whatever the parsers. */
  lemma LoadDefaults(atoi: string -> Option<int>, parseBool: string -> Option<bool>,
                     parseDuration: string -> Option<int>)
    ensures var c := Load(map[], atoi, parseBool, parseDuration);
      && c.env == "development" && c.server.address == ":8080"
      && c.server.readTimeout == 15 * Second && c.server.writeTimeout == 15 * Second
      && c.server.allowedOrigins == ["*"]
      && c.kube.kubeconfigPath == "" && c.kube.context == "" && c.kube.burst == 40 && !c.kube.insecureSkipTLSVerify
      && c.auth.enableDevBypass && c.auth.sessionName == "kz_session"
      && c.auth.sessionTTL == 24 * Hour && c.auth.sessionSecure && c.auth.sessionDomain == ""
  {
    assert Getenv(map[], "KZ_ALLOWED_ORIGINS") == "";
    CsvWildcard();
  }

  /** The default origin list "*" reads back as the one-element list `["*"]`. */
  lemma CsvWildcard()
    ensures CsvValues("*") == ["*"]
  {
    var star := "*";
    assert star[1..] == "";
    assert Split(star[1..], IsComma) == [""];
    assert !IsComma(star[0]) && [star[0]] + "" == star;
    assert Split(star, IsComma) == [star];
    assert TrimSpace(star) == star by { assert !IsSpace(star[0]); }
    assert NonBlank([star]) == [star];
  }
}
