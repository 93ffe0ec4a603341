/** cmd/main.go, loadEnvConfig: the operator's settings read from its
    environment, given here as a map from variable names to values (an unset
    variable reads as ""). */
module Config {
  import opened Wrappers
  import opened Api
  import opened StoreModel
  import PodManager
  import IngressManager
  import TtlWatcher
  import Controller

  type Env = map<string, string>

  const HostVar := "FGTECH_INGRESS_FQDN"
  const TlsSecretVar := "FGTECH_INGRESS_TLS_SECRET"
  const ClassNameVar := "FGTECH_INGRESS_CLASSNAME"
  const ServiceAccountVar := "FGTECH_POD_SERVICEACCOUNT"
  const TtlVar := "FGTECH_DEFAULT_TTL_SECONDS"
  const PodPortVar := "FGTECH_POD_PORT"

  const DefaultTlsSecret := "fgtech-tls"
  const DefaultServiceAccount := "default"
  const DefaultTtlSeconds := 3600
  const DefaultPodPort := 8080
  const MaxPort := 65535

  /** envConfig. */
  datatype EnvConfig = EnvConfig(
    ingressHost: string,
    ingressTlsSecret: string,
    ingressClassName: string,
    defaultTtlSeconds: Int64,
    defaultServiceAccount: string,
    podPort: Int32)

  /** os.Getenv: "" when the variable is unset. */
  function Getenv(env: Env, name: string): (v: string)
    ensures name !in env ==> v == ""
    ensures name in env ==> v == env[name]
  {
    if name in env then env[name] else ""
  }

  // ---------------------------------------------------------------------------
  // strconv.ParseInt in base 10
  // ---------------------------------------------------------------------------

  /** 2^63 and 2^31: ParseInt's range for bit sizes 64 and 32 is [-bound, bound). */
  const Int64Bound := 0x8000_0000_0000_0000
  const Int32Bound := 0x8000_0000

  predicate IsDigit(c: char)
  {
    '0' <= c <= '9'
  }

  predicate AllDigits(s: string)
  {
    forall i :: 0 <= i < |s| ==> IsDigit(s[i])
  }

  function DigitValue(c: char): (d: nat)
    requires IsDigit(c)
    ensures d < 10
  {
    (c as int) - ('0' as int)
  }

  /** The number a non-empty run of decimal digits denotes. */
  function DigitsValue(s: string): nat
    requires AllDigits(s)
    decreases |s|
  {
    if s == [] then 0 else DigitsValue(s[..|s| - 1]) * 10 + DigitValue(s[|s| - 1])
  }

  /** strconv.ParseInt(s, 10, bitSize) for the bit size whose range is
      [-bound, bound): an optional sign, then at least one decimal digit;
      anything else, or a value out of range, is an error (None). */
  function ParseInt(s: string, bound: nat): (r: Option<int>)
    ensures r.Some? ==> -(bound as int) <= r.value < bound
    ensures r.Some? ==> |s| > 0 && (IsDigit(s[0]) || s[0] == '+' || s[0] == '-')
    ensures s == "" ==> r.None?
  {
    var signed := |s| > 0 && (s[0] == '+' || s[0] == '-');
    var body := if signed then s[1..] else s;
    if body == "" || !AllDigits(body) then None
    else
      var v := if signed && s[0] == '-' then -(DigitsValue(body) as int) else DigitsValue(body);
      if -(bound as int) <= v < bound then Some(v) else None
  }

  /** The shortest decimal spelling of `n`: the reference ParseInt inverts. */
  function Decimal(n: nat): (s: string)
    ensures |s| > 0 && AllDigits(s)
    decreases n
  {
    if n < 10 then [('0' as int + n) as char]
    else Decimal(n / 10) + [('0' as int + n % 10) as char]
  }

  lemma {:induction false} DecimalValue(n: nat)
    ensures DigitsValue(Decimal(n)) == n
    decreases n
  {
    if n >= 10 {
      var s := Decimal(n);
      assert s[..|s| - 1] == Decimal(n / 10);
      DecimalValue(n / 10);
    }
  }

  /** ParseInt reads back every in-range decimal, with either sign. */
  lemma ParseDecimal(n: nat, bound: nat)
    requires bound > 0
    ensures n < bound ==> ParseInt(Decimal(n), bound) == Some(n)
    ensures n < bound ==> ParseInt("+" + Decimal(n), bound) == Some(n)
    ensures n <= bound ==> ParseInt("-" + Decimal(n), bound) == Some(-(n as int))
    ensures n >= bound ==> ParseInt(Decimal(n), bound).None? && ParseInt("+" + Decimal(n), bound).None?
    ensures n > bound ==> ParseInt("-" + Decimal(n), bound).None?
  {
    DecimalValue(n);
    var d := Decimal(n);
    assert IsDigit(d[0]);
    assert ("+" + d)[1..] == d;
    var m := "-" + d;
    assert m[1..] == d && m[0] == '-';
  }

  // ---------------------------------------------------------------------------
  // loadEnvConfig
  // ---------------------------------------------------------------------------

  /** The TTL override, when set, is a positive int64. */
  predicate ValidTtl(text: string)
  {
    var p := ParseInt(text, Int64Bound);
    p.Some? && p.value > 0
  }

  /** The port override, when set, is an int32 in 1..65535. */
  predicate ValidPort(text: string)
  {
    var p := ParseInt(text, Int32Bound);
    p.Some? && 0 < p.value <= MaxPort
  }

  /** loadEnvConfig: host, then class, are required; TLS secret and service
      account have defaults; the TTL and the port are checked when set. The
      error is the text of the Go error. */
  function LoadEnvConfig(env: Env): (r: Result<EnvConfig, string>)
    ensures Getenv(env, HostVar) == "" ==> r == Err("FGTECH_INGRESS_FQDN missing")
    ensures r.Ok? ==> && r.value.ingressHost == Getenv(env, HostVar) != ""
                      && r.value.ingressClassName == Getenv(env, ClassNameVar) != ""
                      && r.value.defaultTtlSeconds > 0 && 0 < r.value.podPort <= MaxPort
  {
    var host := Getenv(env, HostVar);
    var className := Getenv(env, ClassNameVar);
    var tls := Getenv(env, TlsSecretVar);
    var account := Getenv(env, ServiceAccountVar);
    var ttlText := Getenv(env, TtlVar);
    var portText := Getenv(env, PodPortVar);
    if host == "" then Err("FGTECH_INGRESS_FQDN missing")
    else if className == "" then Err("FGTECH_INGRESS_CLASSNAME missing")
    else if ttlText != "" && !ValidTtl(ttlText) then Err("invalid FGTECH_DEFAULT_TTL_SECONDS: " + ttlText)
    else if portText != "" && !ValidPort(portText) then Err("invalid FGTECH_POD_PORT: " + portText)
    else
      Ok(EnvConfig(
        host,
        if tls == "" then DefaultTlsSecret else tls,
        className,
        if ttlText == "" then DefaultTtlSeconds else ParseInt(ttlText, Int64Bound).value,
        if account == "" then DefaultServiceAccount else account,
        if portText == "" then DefaultPodPort else ParseInt(portText, Int32Bound).value))
  }

  // ---------------------------------------------------------------------------
  // Properties
  // ---------------------------------------------------------------------------

  /** The configuration is rejected exactly when the host or the class is
      missing or a set TTL or port is invalid, and the first failing check,
      in that order, names the error. */
  lemma LoadEnvConfigErrors(env: Env)
    ensures var r := LoadEnvConfig(env);
            var ttlText := Getenv(env, TtlVar);
            var portText := Getenv(env, PodPortVar);
            && (r.Err? <==>
                  || Getenv(env, HostVar) == "" || Getenv(env, ClassNameVar) == ""
                  || (ttlText != "" && !ValidTtl(ttlText)) || (portText != "" && !ValidPort(portText)))
            && (Getenv(env, HostVar) == "" ==> r == Err("FGTECH_INGRESS_FQDN missing"))
            && (Getenv(env, HostVar) != "" && Getenv(env, ClassNameVar) == "" ==> r == Err("FGTECH_INGRESS_CLASSNAME missing"))
  {
  }

  /** Every accepted configuration has a host, a class, a TLS secret and a
      service account, a positive TTL and a port in 1..65535; each field is
      its variable's value when set, and its default otherwise. */
  lemma LoadedConfigIsValid(env: Env)
    requires LoadEnvConfig(env).Ok?
    ensures var c := LoadEnvConfig(env).value;
            && c.ingressHost != "" && c.ingressClassName != "" && c.ingressTlsSecret != "" && c.defaultServiceAccount != ""
            && c.defaultTtlSeconds > 0 && 0 < c.podPort <= MaxPort
            && c.ingressHost == env[HostVar] && c.ingressClassName == env[ClassNameVar]
            && c.ingressTlsSecret == (if Getenv(env, TlsSecretVar) == "" then DefaultTlsSecret else env[TlsSecretVar])
            && c.defaultServiceAccount == (if Getenv(env, ServiceAccountVar) == "" then DefaultServiceAccount else env[ServiceAccountVar])
            && (Getenv(env, TtlVar) == "" ==> c.defaultTtlSeconds == DefaultTtlSeconds)
            && (Getenv(env, TtlVar) != "" ==> Some(c.defaultTtlSeconds as int) == ParseInt(env[TtlVar], Int64Bound))
            && (Getenv(env, PodPortVar) == "" ==> c.podPort == DefaultPodPort)
            && (Getenv(env, PodPortVar) != "" ==> Some(c.podPort as int) == ParseInt(env[PodPortVar], Int32Bound))
  {
  }

  /** A set TTL or port given as a decimal in range overrides its default. */
  lemma DecimalOverrides(env: Env, ttl: nat, port: nat)
    requires Getenv(env, HostVar) != "" && Getenv(env, ClassNameVar) != ""
    requires 0 < ttl < Int64Bound && 0 < port <= MaxPort
    requires TtlVar in env && env[TtlVar] == Decimal(ttl)
    requires PodPortVar in env && env[PodPortVar] == Decimal(port)
    ensures LoadEnvConfig(env).Ok?
    ensures LoadEnvConfig(env).value.defaultTtlSeconds == ttl && LoadEnvConfig(env).value.podPort == port
  {
    ParseDecimal(ttl, Int64Bound);
    ParseDecimal(port, Int32Bound);
  }

  /** With only host and class set: TLS "fgtech-tls", account "default",
      TTL 3600, port 8080. */
  lemma DefaultsExample()
    ensures LoadEnvConfig(map[HostVar := "apps.example.com", ClassNameVar := "nginx"])
            == Ok(EnvConfig("apps.example.com", "fgtech-tls", "nginx", 3600, "default", 8080))
  {
  }

  /** The digits of the overrides example. */
  lemma OverrideDigits()
    ensures Decimal(7200) == "7200" && Decimal(9090) == "9090"
  {
  }

  /** Every variable set: each value replaces its default. */
  lemma OverridesExample()
    ensures var env := map[HostVar := "apps.example.com", TlsSecretVar := "custom-tls", ClassNameVar := "nginx-custom",
                           TtlVar := "7200", ServiceAccountVar := "sa-custom", PodPortVar := "9090"];
            LoadEnvConfig(env) == Ok(EnvConfig("apps.example.com", "custom-tls", "nginx-custom", 7200, "sa-custom", 9090))
  {
    var env := map[HostVar := "apps.example.com", TlsSecretVar := "custom-tls", ClassNameVar := "nginx-custom",
                   TtlVar := "7200", ServiceAccountVar := "sa-custom", PodPortVar := "9090"];
    OverrideDigits();
    DecimalOverrides(env, 7200, 9090);
  }

  /** An empty environment lacks the host. */
  lemma MissingHostExample()
    ensures LoadEnvConfig(map[]) == Err("FGTECH_INGRESS_FQDN missing")
  {
  }

  /** Without a class, the class check comes first and names the error, even
      for a TTL of -1 or a port of 0. */
  lemma MissingClassExamples()
    ensures LoadEnvConfig(map[HostVar := "apps.example.com"]) == Err("FGTECH_INGRESS_CLASSNAME missing")
    ensures LoadEnvConfig(map[HostVar := "apps.example.com", TtlVar := "-1"]) == Err("FGTECH_INGRESS_CLASSNAME missing")
    ensures LoadEnvConfig(map[HostVar := "apps.example.com", PodPortVar := "0"]) == Err("FGTECH_INGRESS_CLASSNAME missing")
  {
  }

  /** With a class, a TTL of -1 or a port of 0 is rejected with its own error. */
  lemma BadValueExamples()
    ensures LoadEnvConfig(map[HostVar := "apps.example.com", ClassNameVar := "nginx", TtlVar := "-1"])
            == Err("invalid FGTECH_DEFAULT_TTL_SECONDS: -1")
    ensures LoadEnvConfig(map[HostVar := "apps.example.com", ClassNameVar := "nginx", PodPortVar := "0"])
            == Err("invalid FGTECH_POD_PORT: 0")
  {
    ParseDecimal(1, Int64Bound);
    ParseDecimal(0, Int32Bound);
    assert Decimal(1) == "1" && Decimal(0) == "0";
    assert "invalid FGTECH_DEFAULT_TTL_SECONDS: " + "-1" == "invalid FGTECH_DEFAULT_TTL_SECONDS: -1";
    assert "invalid FGTECH_POD_PORT: " + "0" == "invalid FGTECH_POD_PORT: 0";
  }

  // ---------------------------------------------------------------------------
  // Wiring the configuration into the components (cmd/main.go, main)
  // ---------------------------------------------------------------------------

  function IngressSettingsOf(c: EnvConfig): IngressManager.IngressSettings
  {
    IngressManager.IngressSettings(c.ingressHost, c.ingressTlsSecret, c.ingressClassName)
  }

  function ReconcilerSettingsOf(c: EnvConfig): Controller.ReconcilerSettings
  {
    Controller.ReconcilerSettings(
      PodManager.PodSettings(c.defaultTtlSeconds, c.defaultServiceAccount, c.podPort),
      IngressSettingsOf(c))
  }

  function WatcherSettingsOf(c: EnvConfig): TtlWatcher.WatcherSettings
  {
    TtlWatcher.WatcherSettings(c.defaultTtlSeconds, IngressSettingsOf(c))
  }

  /** With an accepted configuration, a successful SyncNamespace leaves the
      namespace converged, and running it again writes nothing: the class
      and TLS secret it sets are never empty. */
  lemma LoadedSettingsSyncIdempotently(env: Env, s: StoreState, ns: string)
    requires LoadEnvConfig(env).Ok?
    requires IngressManager.SyncSpec(IngressSettingsOf(LoadEnvConfig(env).value), s, ns).result.Ok?
    ensures var cfg := IngressSettingsOf(LoadEnvConfig(env).value);
            var t := IngressManager.SyncSpec(cfg, s, ns).state;
            && IngressManager.SyncConverged(cfg, t, ns)
            && IngressManager.SyncSpec(cfg, t, ns).result.Ok? && Quiet(t, IngressManager.SyncSpec(cfg, t, ns).state)
  {
    LoadedConfigIsValid(env);
    IngressManager.SyncIdempotent(IngressSettingsOf(LoadEnvConfig(env).value), s, ns);
  }

  /** The watcher and the reconciler share the ingress settings, and an
      accepted configuration never gives the sync its missing-host error. */
  lemma LoadedSettingsShareIngress(env: Env)
    requires LoadEnvConfig(env).Ok?
    ensures var c := LoadEnvConfig(env).value;
            && WatcherSettingsOf(c).ingress == ReconcilerSettingsOf(c).ingress
            && ReconcilerSettingsOf(c).ingress.host != ""
            && WatcherSettingsOf(c).defaultTTLSeconds == ReconcilerSettingsOf(c).pod.defaultTTLSeconds > 0
  {
    LoadedConfigIsValid(env);
  }
}
