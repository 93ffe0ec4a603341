/** pkg/ingress: one ingress per namespace aggregating a route per Fgtech.

    SyncNamespace first makes sure the default backend pod and service exist,
    then lists the namespace's instances, derives their routes sorted by path,
    and creates the ingress or updates it when it differs from the desired
    spec. SyncSpec says what it does to a store value. */
module IngressManager {
  import opened Wrappers
  import opened Api
  import opened Objects
  import opened StoreModel
  import PodManager
  import StoreClient
  import opened Sequences

  const IngressName := "fgtech-global-ingress"
  const BackendName := "fgtech-fake-backend"
  const BackendImage := "nginxdemos/hello"
  const BackendContainer := "backend"
  const RoutePort := 80
  const HostMissing := "FGTECH_INGRESS_FQDN env not set"

  /** The ingress host, TLS secret and ingress class a Manager is built with. */
  datatype IngressSettings = IngressSettings(host: string, tlsSecret: string, className: string)

  // ---------------------------------------------------------------------------
  // Route paths
  // ---------------------------------------------------------------------------

  /** unicode.IsSpace, which strings.TrimSpace trims. */
  predicate IsSpace(c: char)
  {
    || c == ' ' || c == '\t' || c == '\n' || c == '\r' || c == '\U{000B}' || c == '\U{000C}'
    || c == '\U{0085}' || c == '\U{00A0}' || c == '\U{1680}'
    || ('\U{2000}' <= c <= '\U{200A}')
    || c == '\U{2028}' || c == '\U{2029}' || c == '\U{202F}' || c == '\U{205F}' || c == '\U{3000}'
  }

  predicate IsSlash(c: char)
  {
    c == '/'
  }

  /** The number of leading characters of `s` satisfying `drop`. */
  function Leading(s: string, drop: char -> bool): (n: nat)
    ensures n <= |s|
    ensures forall i :: 0 <= i < n ==> drop(s[i])
    ensures n < |s| ==> !drop(s[n])
  {
    if s == [] || !drop(s[0]) then 0 else 1 + Leading(s[1..], drop)
  }

  /** The number of trailing characters of `s` satisfying `drop`. */
  function Trailing(s: string, drop: char -> bool): (n: nat)
    ensures n <= |s|
    ensures forall i :: |s| - n <= i < |s| ==> drop(s[i])
    ensures n < |s| ==> !drop(s[|s| - 1 - n])
  {
    if s == [] || !drop(s[|s| - 1]) then 0 else 1 + Trailing(s[..|s| - 1], drop)
  }

  /** Where strings.Trim-like trimming cuts `s`: everything outside
      [start, end) satisfies `drop`, and the kept part, when not empty, neither
      starts nor ends with such a character. The kept part is otherwise `s`
      itself, interior untouched. */
  function TrimBounds(s: string, drop: char -> bool): (b: (nat, nat))
    ensures b.0 <= b.1 <= |s|
    ensures forall i :: 0 <= i < b.0 ==> drop(s[i])
    ensures forall i :: b.1 <= i < |s| ==> drop(s[i])
    ensures b.0 < b.1 ==> !drop(s[b.0]) && !drop(s[b.1 - 1])
  {
    var start := Leading(s, drop);
    var end := |s| - Trailing(s[start..], drop);
    assert forall i :: end <= i < |s| ==> s[i] == s[start..][i - start];
    (start, end)
  }

  function Trim(s: string, drop: char -> bool): string
  {
    var b := TrimBounds(s, drop);
    s[b.0..b.1]
  }

  /** The route prefix after strings.TrimSpace then strings.Trim(_, "/"). */
  function RouteBase(extraPath: string): string
  {
    Trim(Trim(extraPath, IsSpace), IsSlash)
  }

  /** buildRoutePath: "/" + name, or "/" + base + "/" + name for a non-empty base. */
  function BuildRoutePath(extraPath: string, name: string): (path: string)
    ensures |path| > 0 && path[0] == '/'
    ensures |path| > |name| && path[|path| - |name|..] == name && path[|path| - |name| - 1] == '/'
    ensures RouteBase(extraPath) == "" ==> path == "/" + name
    ensures RouteBase(extraPath) != "" ==> path == "/" + RouteBase(extraPath) + "/" + name
  {
    var base := RouteBase(extraPath);
    if base == "" then "/" + name else "/" + base + "/" + name
  }

  /** The base of a route never starts or ends with '/', so the path has no
      "//" where the base meets the leading slash or the name. */
  lemma RouteBaseHasNoEndSlashes(extraPath: string)
    ensures var base := RouteBase(extraPath);
            base != "" ==> base[0] != '/' && base[|base| - 1] != '/'
  {
    var t := Trim(extraPath, IsSpace);
    var b := TrimBounds(t, IsSlash);
    assert RouteBase(extraPath) == t[b.0..b.1];
  }

  // ---------------------------------------------------------------------------
  // Route table
  // ---------------------------------------------------------------------------

  /** The route collectRoutes builds for one instance. */
  function RouteFor(item: Fgtech): HttpPath
  {
    HttpPath(BuildRoutePath(item.spec.extraPath, item.name), Some(Prefix),
             Backend(Some(ServiceBackend(PodManager.ServiceNameFor(item), RoutePort))))
  }

  /** One route per listed instance, in list order. */
  function MapRoutes(items: seq<Fgtech>): (routes: seq<HttpPath>)
    ensures |routes| == |items|
    ensures forall i :: 0 <= i < |items| ==> routes[i] == RouteFor(items[i])
  {
    MapSeq(RouteFor, items)
  }

  lemma MapRoutesSnoc(items: seq<Fgtech>, i: nat)
    requires i < |items|
    ensures MapRoutes(items[..i + 1]) == MapRoutes(items[..i]) + [RouteFor(items[i])]
  {
    assert items[..i + 1] == items[..i] + [items[i]];
    MapSeqAppend(RouteFor, items[..i], [items[i]]);
  }

  /** Go's `<` on strings put as `<=`: byte-wise lexicographic, which on UTF-8
      is the order of code points. */
  predicate PathLe(a: string, b: string)
    decreases |a|
  {
    if a == [] then true
    else if b == [] then false
    else if a[0] != b[0] then a[0] < b[0]
    else PathLe(a[1..], b[1..])
  }

  lemma {:induction false} PathLeTotal(a: string, b: string)
    ensures PathLe(a, b) || PathLe(b, a)
    decreases |a|
  {
    if a != [] && b != [] && a[0] == b[0] {
      PathLeTotal(a[1..], b[1..]);
    }
  }

  lemma {:induction false} PathLeTransitive(a: string, b: string, c: string)
    requires PathLe(a, b) && PathLe(b, c)
    ensures PathLe(a, c)
    decreases |a|
  {
    if a != [] && b != [] && c != [] && a[0] == b[0] && b[0] == c[0] {
      PathLeTransitive(a[1..], b[1..], c[1..]);
    }
  }

  lemma {:induction false} PathLeAntisymmetric(a: string, b: string)
    requires PathLe(a, b) && PathLe(b, a)
    ensures a == b
    decreases |a|
  {
    if a != [] && b != [] {
      PathLeAntisymmetric(a[1..], b[1..]);
      assert a == [a[0]] + a[1..] && b == [b[0]] + b[1..];
    }
  }

  predicate SortedByPath(routes: seq<HttpPath>)
  {
    forall i, j :: 0 <= i < j < |routes| ==> PathLe(routes[i].path, routes[j].path)
  }

  lemma SortedCons(x: HttpPath, s: seq<HttpPath>)
    requires SortedByPath(s)
    requires s != [] ==> PathLe(x.path, s[0].path)
    ensures SortedByPath([x] + s)
  {
    forall j | 0 < j < |s| ensures PathLe(x.path, s[j].path) {
      PathLeTransitive(x.path, s[0].path, s[j].path);
    }
  }

  /** Insertion of one route into a sorted route list. */
  function InsertByPath(x: HttpPath, s: seq<HttpPath>): (r: seq<HttpPath>)
    requires SortedByPath(s)
    ensures SortedByPath(r)
    ensures multiset(r) == multiset(s) + multiset{x}
    ensures r != [] && (r[0] == x || (s != [] && r[0] == s[0]))
  {
    if s == [] then [x]
    else if PathLe(x.path, s[0].path) then
      SortedCons(x, s);
      [x] + s
    else
      var rest := InsertByPath(x, s[1..]);
      PathLeTotal(x.path, s[0].path);
      assert rest[0] == x || rest[0] == s[1];
      SortedCons(s[0], rest);
      assert s == [s[0]] + s[1..];
      [s[0]] + rest
  }

  /** sort.Slice by path, ascending. */
  function SortByPath(routes: seq<HttpPath>): (sorted: seq<HttpPath>)
    ensures SortedByPath(sorted)
    ensures multiset(sorted) == multiset(routes)
  {
    if routes == [] then []
    else
      assert routes == [routes[0]] + routes[1..];
      InsertByPath(routes[0], SortByPath(routes[1..]))
  }

  /** The route list collectRoutes returns for the listed instances. */
  function Routes(items: seq<Fgtech>): seq<HttpPath>
  {
    SortByPath(MapRoutes(items))
  }

  // ---------------------------------------------------------------------------
  // Ingress spec
  // ---------------------------------------------------------------------------

  const DefaultBackend := Backend(Some(ServiceBackend(BackendName, RoutePort)))
  const EmptySpec := IngressSpec(None, None, [], [])

  /** applySpec on the ingress it is given: the class and TLS are set only when
      configured (and otherwise left as they were), the default backend and
      the single host rule are always overwritten. */
  function ApplySpec(cfg: IngressSettings, spec: IngressSpec, routes: seq<HttpPath>): (r: IngressSpec)
    ensures r.defaultBackend == Some(DefaultBackend)
    ensures r.className == if cfg.className != "" then Some(cfg.className) else spec.className
    ensures r.tls == if cfg.tlsSecret != "" then [Tls([cfg.host], cfg.tlsSecret)] else spec.tls
    ensures |r.rules| == 1 && r.rules[0].host == cfg.host
    ensures r.rules[0].http.None? <==> routes == []
    ensures r.rules[0].http.Some? ==> r.rules[0].http.value == routes
  {
    var className := if cfg.className != "" then Some(cfg.className) else spec.className;
    var tls := if cfg.tlsSecret != "" then [Tls([cfg.host], cfg.tlsSecret)] else spec.tls;
    var rule := if |routes| == 0 then Rule(cfg.host, None) else Rule(cfg.host, Some(routes));
    IngressSpec(className, Some(DefaultBackend), tls, [rule])
  }

  /** The spec needsUpdate compares against: applySpec on an empty ingress. */
  function DesiredSpec(cfg: IngressSettings, routes: seq<HttpPath>): IngressSpec
  {
    ApplySpec(cfg, EmptySpec, routes)
  }

  /** buildIngress: a new ingress labelled app=fgtech whose spec is applySpec
      on an empty one, so the class and the TLS entry are present exactly
      when configured. */
  function BuildIngress(cfg: IngressSettings, routes: seq<HttpPath>): (r: Ingress)
    ensures r.labels == map[PodManager.AppLabel := PodManager.AppName] && r.spec == DesiredSpec(cfg, routes)
    ensures r.spec.className == if cfg.className != "" then Some(cfg.className) else None
    ensures r.spec.tls == if cfg.tlsSecret != "" then [Tls([cfg.host], cfg.tlsSecret)] else []
  {
    Ingress(map[PodManager.AppLabel := PodManager.AppName], DesiredSpec(cfg, routes))
  }

  predicate ServiceBackendsEqual(e: Backend, d: Backend)
  {
    e.service.Some? && d.service.Some? && e.service.value.name == d.service.value.name && e.service.value.port == d.service.value.port
  }

  predicate TlsEqual(e: Tls, d: Tls)
  {
    e.secretName == d.secretName && e.hosts == d.hosts
  }

  /** Per path: the path and the backend service name and port; not the path type. */
  predicate PathsEqual(e: seq<HttpPath>, d: seq<HttpPath>)
  {
    |e| == |d| && forall j :: 0 <= j < |d| ==> e[j].path == d[j].path && ServiceBackendsEqual(e[j].backend, d[j].backend)
  }

  predicate RulesEqual(e: Rule, d: Rule)
  {
    e.host == d.host && e.http.None? == d.http.None? && (d.http.Some? ==> PathsEqual(e.http.value, d.http.value))
  }

  /** What ingressEqual compares: class, default backend, TLS, rules. */
  predicate SpecsEqual(e: IngressSpec, d: IngressSpec)
  {
    && e.className == d.className
    && e.defaultBackend.Some? && d.defaultBackend.Some?
    && ServiceBackendsEqual(e.defaultBackend.value, d.defaultBackend.value)
    && |e.tls| == |d.tls| && (forall i :: 0 <= i < |d.tls| ==> TlsEqual(e.tls[i], d.tls[i]))
    && |e.rules| == |d.rules| && (forall i :: 0 <= i < |d.rules| ==> RulesEqual(e.rules[i], d.rules[i]))
  }

  /** needsUpdate, as a predicate. */
  predicate IngressDrifted(cfg: IngressSettings, ing: Ingress, routes: seq<HttpPath>)
  {
    !SpecsEqual(ing.spec, DesiredSpec(cfg, routes))
  }

  /** ingressEqual, with its index loops and early returns. */
  method IngressEqual(existing: IngressSpec, desired: IngressSpec) returns (equal: bool)
    ensures equal == SpecsEqual(existing, desired)
  {
    if existing.className.None? != desired.className.None? {
      return false;
    }
    if existing.className.Some? && desired.className.Some? && existing.className.value != desired.className.value {
      return false;
    }
    if existing.defaultBackend.None? || desired.defaultBackend.None? {
      return false;
    }
    var eb, db := existing.defaultBackend.value, desired.defaultBackend.value;
    if eb.service.None? || db.service.None? {
      return false;
    }
    if eb.service.value.name != db.service.value.name {
      return false;
    }
    if eb.service.value.port != db.service.value.port {
      return false;
    }

    if |existing.tls| != |desired.tls| {
      return false;
    }
    var i := 0;
    while i < |desired.tls|
      invariant 0 <= i <= |desired.tls|
      invariant forall k :: 0 <= k < i ==> TlsEqual(existing.tls[k], desired.tls[k])
    {
      var et, dt := existing.tls[i], desired.tls[i];
      if et.secretName != dt.secretName {
        return false;
      }
      if |et.hosts| != |dt.hosts| {
        return false;
      }
      var j := 0;
      while j < |dt.hosts|
        invariant 0 <= j <= |dt.hosts|
        invariant forall m :: 0 <= m < j ==> et.hosts[m] == dt.hosts[m]
      {
        if et.hosts[j] != dt.hosts[j] {
          return false;
        }
        j := j + 1;
      }
      assert et.hosts == dt.hosts;
      i := i + 1;
    }

    if |existing.rules| != |desired.rules| {
      return false;
    }
    i := 0;
    while i < |desired.rules|
      invariant 0 <= i <= |desired.rules|
      invariant forall k :: 0 <= k < i ==> RulesEqual(existing.rules[k], desired.rules[k])
    {
      var er, dr := existing.rules[i], desired.rules[i];
      if er.host != dr.host {
        return false;
      }
      if er.http.None? != dr.http.None? {
        return false;
      }
      if dr.http.None? {
        i := i + 1;
        continue;
      }
      var ep, dp := er.http.value, dr.http.value;
      if |ep| != |dp| {
        return false;
      }
      var j := 0;
      while j < |dp|
        invariant 0 <= j <= |dp|
        invariant forall m :: 0 <= m < j ==> ep[m].path == dp[m].path && ServiceBackendsEqual(ep[m].backend, dp[m].backend)
      {
        if ep[j].path != dp[j].path {
          return false;
        }
        if ep[j].backend.service.None? || dp[j].backend.service.None? {
          return false;
        }
        if ep[j].backend.service.value.name != dp[j].backend.service.value.name {
          return false;
        }
        if ep[j].backend.service.value.port != dp[j].backend.service.value.port {
          return false;
        }
        j := j + 1;
      }
      i := i + 1;
    }
    return true;
  }

  // ---------------------------------------------------------------------------
  // Default backend
  // ---------------------------------------------------------------------------

  function BackendPod(): Pod
  {
    Pod(map[PodManager.AppLabel := BackendName], None,
        PodSpec(None, "", [], [Container(BackendContainer, BackendImage, [], [ContainerPort("", 80)], [])]))
  }

  function BackendService(): Service
  {
    Service(map[PodManager.AppLabel := BackendName], None,
            ServiceSpec(map[PodManager.AppLabel := BackendName], [ServicePort(PodManager.HttpPortName, 80, 80)], ""))
  }

  function BackendKey(ns: string): Key
  {
    Key(ns, BackendName)
  }

  function IngressKey(ns: string): Key
  {
    Key(ns, IngressName)
  }

  /** No instance's pod or service is named like the default backend. */
  lemma BackendNameIsNoDerivedName(fg: Fgtech)
    ensures PodManager.PodNameFor(fg) != BackendName
    ensures PodManager.ServiceNameFor(fg) != BackendName
  {
    var b := BackendName;
    if |fg.name| + 4 == |b| {
      assert b[|fg.name|..] == "kend";
    }
  }

  /** ensureBackendPod: create if absent, never update. */
  function EnsureBackendPodSpec(s: StoreState, ns: string): Step<()>
  {
    var got := GetPod(s, BackendKey(ns));
    match got.result
    case Ok(_) => Step(got.state, Ok(()))
    case Err(e) => if e.NotFound? then CreatePod(got.state, BackendKey(ns), BackendPod()) else Step(got.state, Err(e))
  }

  /** ensureBackendService: create if absent, never update. */
  function EnsureBackendServiceSpec(s: StoreState, ns: string): Step<()>
  {
    var got := GetService(s, BackendKey(ns));
    match got.result
    case Ok(_) => Step(got.state, Ok(()))
    case Err(e) => if e.NotFound? then CreateService(got.state, BackendKey(ns), BackendService()) else Step(got.state, Err(e))
  }

  function EnsureDefaultBackendSpec(s: StoreState, ns: string): Step<()>
  {
    var p := EnsureBackendPodSpec(s, ns);
    if p.result.Err? then p else EnsureBackendServiceSpec(p.state, ns)
  }

  /** collectRoutes. */
  function CollectRoutesSpec(s: StoreState, ns: string): Step<seq<HttpPath>>
  {
    var listed := ListInstances(s, Some(ns));
    Step(listed.state, if listed.result.Ok? then Ok(Routes(listed.result.value)) else Err(listed.result.error))
  }

  /** collectRoutes' result is the sort of the routes its loop appended. */
  lemma CollectedRoutes(s: StoreState, ns: string, paths: seq<HttpPath>)
    requires ListInstances(s, Some(ns)).result.Ok?
    requires paths == MapRoutes(ListInstances(s, Some(ns)).result.value)
    ensures CollectRoutesSpec(s, ns) == Step(ListInstances(s, Some(ns)).state, Ok(SortByPath(paths)))
  {
  }

  /** The last part of SyncNamespace: create the ingress when absent, update
      it when it differs from the desired spec. */
  function ConvergeIngressSpec(cfg: IngressSettings, s: StoreState, ns: string, routes: seq<HttpPath>): Step<()>
  {
    var got := GetIngress(s, IngressKey(ns));
    match got.result
    case Err(e) =>
      if e.NotFound? then CreateIngress(got.state, IngressKey(ns), BuildIngress(cfg, routes))
      else Step(got.state, Err(e))
    case Ok(ing) =>
      if IngressDrifted(cfg, ing, routes) then UpdateIngress(got.state, IngressKey(ns), ing.(spec := ApplySpec(cfg, ing.spec, routes)))
      else Step(got.state, Ok(()))
  }

  /** SyncNamespace. */
  function SyncSpec(cfg: IngressSettings, s: StoreState, ns: string): Step<()>
  {
    if cfg.host == "" then Step(s, Err(Invalid(HostMissing)))
    else
      var backend := EnsureDefaultBackendSpec(s, ns);
      if backend.result.Err? then backend
      else
        var collected := CollectRoutesSpec(backend.state, ns);
        if collected.result.Err? then Step(collected.state, Err(collected.result.error))
        else ConvergeIngressSpec(cfg, collected.state, ns, collected.result.value)
  }

  // ---------------------------------------------------------------------------
  // Properties
  // ---------------------------------------------------------------------------

  /** Trimming is determined by where the kept part starts and ends: a part
      that does not start or end with a dropped character, surrounded only by
      dropped characters, is what Trim keeps. */
  lemma TrimKeeps(s: string, drop: char -> bool, i: nat, j: nat)
    requires i < j <= |s|
    requires forall k :: 0 <= k < i ==> drop(s[k])
    requires forall k :: j <= k < |s| ==> drop(s[k])
    requires !drop(s[i]) && !drop(s[j - 1])
    ensures Trim(s, drop) == s[i..j]
  {
  }

  lemma RouteBaseOf(extraPath: string, trimmed: string, base: string)
    requires Trim(extraPath, IsSpace) == trimmed && Trim(trimmed, IsSlash) == base
    ensures RouteBase(extraPath) == base
  {
  }

  /** Route bases from the repository's buildRoutePath test table (the path
      is "/" + name for an empty base, "/" + base + "/" + name otherwise). */
  lemma RouteBaseExamples()
    ensures RouteBase("") == "" && RouteBase("/") == ""
  {
    TrimKeeps("/", IsSpace, 0, 1);
    assert Leading("/", IsSlash) == 1;
    RouteBaseOf("/", "/", "");
  }

  lemma RouteBaseSimpleExample()
    ensures RouteBase("apps") == "apps"
  {
    TrimKeeps("apps", IsSpace, 0, 4);
    TrimKeeps("apps", IsSlash, 0, 4);
    RouteBaseOf("apps", "apps", "apps");
  }

  /** The nested row: the interior slash stays. */
  lemma RouteBaseNestedExample()
    ensures RouteBase("/apps/v1/") == "apps/v1"
  {
    NestedBlankTrimExample();
    NestedSlashTrimExample();
    RouteBaseOf("/apps/v1/", "/apps/v1/", "apps/v1");
  }

  lemma NestedBlankTrimExample()
    ensures Trim("/apps/v1/", IsSpace) == "/apps/v1/"
  {
    TrimKeeps("/apps/v1/", IsSpace, 0, 9);
  }

  lemma NestedSlashTrimExample()
    ensures Trim("/apps/v1/", IsSlash) == "apps/v1"
  {
    TrimKeeps("/apps/v1/", IsSlash, 1, 8);
  }

  lemma BlankTrimExample()
    ensures Trim("  //apps//  ", IsSpace) == "//apps//"
  {
    TrimKeeps("  //apps//  ", IsSpace, 2, 10);
  }

  lemma SlashTrimExample()
    ensures Trim("//apps//", IsSlash) == "apps"
  {
    TrimKeeps("//apps//", IsSlash, 2, 6);
  }

  /** The whitespace row of the same table: blanks go first, then slashes. */
  lemma RouteBaseBlankExample()
    ensures RouteBase("  //apps//  ") == "apps"
  {
    BlankTrimExample();
    SlashTrimExample();
    RouteBaseOf("  //apps//  ", "//apps//", "apps");
  }

  /** A name without '/' is the last segment of its route path, so two routes
      with the same path were built for the same name. */
  lemma {:induction false} RoutePathDeterminesName(e1: string, n1: string, e2: string, n2: string)
    requires '/' !in n1 && '/' !in n2
    requires BuildRoutePath(e1, n1) == BuildRoutePath(e2, n2)
    ensures n1 == n2
  {
  }

  predicate NamesWithoutSlash(items: seq<Fgtech>)
  {
    forall fg :: fg in items ==> '/' !in fg.name
  }

  function PathOf(r: HttpPath): string
  {
    r.path
  }

  /** No two different routes share a path. */
  predicate DistinctPaths(routes: seq<HttpPath>)
  {
    forall x, y :: x in routes && y in routes && x.path == y.path ==> x == y
  }

  /** Listings that differ only in order give route lists that differ only in order. */
  lemma MapRoutesPermutation(a: seq<Fgtech>, b: seq<Fgtech>)
    requires multiset(a) == multiset(b)
    ensures multiset(MapRoutes(a)) == multiset(MapRoutes(b))
  {
    MapSeqPermutation(RouteFor, a, b);
    MapRoutesIsMapSeq(a);
    MapRoutesIsMapSeq(b);
  }

  /** Two instances whose names have no '/' and whose routes share a path have the same route. */
  lemma RouteDeterminedByPath(f: Fgtech, g: Fgtech)
    requires '/' !in f.name && '/' !in g.name
    requires RouteFor(f).path == RouteFor(g).path
    ensures RouteFor(f) == RouteFor(g)
  {
    RoutePathDeterminesName(f.spec.extraPath, f.name, g.spec.extraPath, g.name);
    assert PodManager.ServiceNameFor(f) == PodManager.ServiceNameFor(g);
  }

  lemma RoutePathsDistinct(items: seq<Fgtech>)
    requires NamesWithoutSlash(items)
    ensures DistinctPaths(MapRoutes(items))
  {
    RoutesInjectiveByPath(items);
    MapSeqKeysDistinct(RouteFor, PathOf, items);
    MapRoutesIsMapSeq(items);
  }

  lemma RoutesInjectiveByPath(items: seq<Fgtech>)
    requires NamesWithoutSlash(items)
    ensures forall f, g :: f in items && g in items && RouteFor(f).path == RouteFor(g).path ==> RouteFor(f) == RouteFor(g)
  {
    forall f, g | f in items && g in items && RouteFor(f).path == RouteFor(g).path
      ensures RouteFor(f) == RouteFor(g)
    {
      RouteDeterminedByPath(f, g);
    }
  }

  lemma MapRoutesIsMapSeq(items: seq<Fgtech>)
    ensures MapRoutes(items) == MapSeq(RouteFor, items)
  {
  }

  lemma {:induction false} PathLeReflexive(a: string)
    ensures PathLe(a, a)
    decreases |a|
  {
    if a != [] {
      PathLeReflexive(a[1..]);
    }
  }

  /** The head of a sorted route list has the least path. */
  lemma SortedHeadIsLeast(a: seq<HttpPath>, x: HttpPath)
    requires SortedByPath(a) && x in a
    ensures PathLe(a[0].path, x.path)
  {
    var i :| 0 <= i < |a| && a[i] == x;
    if i == 0 {
      PathLeReflexive(x.path);
    }
  }

  /** Two sorted arrangements of the same routes with distinct paths start
      with the same route. */
  lemma SortedHeadsEqual(a: seq<HttpPath>, b: seq<HttpPath>)
    requires SortedByPath(a) && SortedByPath(b) && a != []
    requires multiset(a) == multiset(b)
    requires DistinctPaths(a)
    ensures b != [] && a[0] == b[0]
  {
    assert a[0] in multiset(b);
    assert b[0] in multiset(a);
    SortedHeadIsLeast(a, b[0]);
    SortedHeadIsLeast(b, a[0]);
    PathLeAntisymmetric(a[0].path, b[0].path);
  }

  /** Two sorted arrangements of the same routes with distinct paths are the same list. */
  lemma {:induction false} SortedArrangementUnique(a: seq<HttpPath>, b: seq<HttpPath>)
    requires SortedByPath(a) && SortedByPath(b)
    requires multiset(a) == multiset(b)
    requires DistinctPaths(a)
    ensures a == b
    decreases |a|
  {
    if a == [] {
      assert |b| == |multiset(b)| == 0;
    } else {
      SortedHeadsEqual(a, b);
      TailsPermutation(a, b);
      assert DistinctPaths(a[1..]) by {
        assert forall x :: x in a[1..] ==> x in a;
      }
      SortedArrangementUnique(a[1..], b[1..]);
      assert a == [a[0]] + a[1..] && b == [b[0]] + b[1..];
    }
  }

  /** The route list does not depend on the order in which the store lists the
      instances, even though sort.Slice is not stable. */
  lemma RoutesIndependentOfListingOrder(a: seq<Fgtech>, b: seq<Fgtech>)
    requires multiset(a) == multiset(b)
    requires NamesWithoutSlash(a)
    ensures Routes(a) == Routes(b)
  {
    MapRoutesPermutation(a, b);
    RoutePathsDistinct(a);
    var ra, rb := Routes(a), Routes(b);
    assert multiset(ra) == multiset(rb);
    assert DistinctPaths(ra) by {
      forall x | x in ra ensures x in MapRoutes(a) {
        assert x in multiset(ra);
      }
    }
    SortedArrangementUnique(ra, rb);
  }

  /** collectRoutes: one route per listed instance (the routes are those of
      MapRoutes, reordered), with that instance's service on port 80 and the
      Prefix path type, sorted by path. */
  lemma RoutesAreOnePerInstance(items: seq<Fgtech>)
    ensures |Routes(items)| == |items|
    ensures SortedByPath(Routes(items))
    ensures multiset(Routes(items)) == multiset(MapRoutes(items))
    ensures forall r :: r in Routes(items) ==> PrefixOnRoutePort(r)
  {
    var m, rs := MapRoutes(items), Routes(items);
    assert |rs| == |m| by {
      assert |multiset(rs)| == |multiset(m)|;
    }
    forall r | r in rs ensures PrefixOnRoutePort(r) {
      assert r in multiset(m);
      var i :| 0 <= i < |m| && m[i] == r;
      RouteForOnRoutePort(items[i]);
    }
  }

  /** A Prefix route to a service on port 80. */
  predicate PrefixOnRoutePort(r: HttpPath)
  {
    r.pathType == Some(Prefix) && r.backend.service.Some? && r.backend.service.value.port == RoutePort
  }

  lemma RouteForOnRoutePort(fg: Fgtech)
    ensures PrefixOnRoutePort(RouteFor(fg))
  {
  }

  /** Two routes come out of the sort in path order, whatever their order before. */
  lemma SortTwo(x: HttpPath, y: HttpPath)
    requires !PathLe(x.path, y.path)
    ensures SortByPath([x, y]) == [y, x] && SortByPath([y, x]) == [y, x]
  {
    PathLeTotal(x.path, y.path);
    assert [x, y][1..] == [y] && [y, x][1..] == [x];
    assert SortByPath([y]) == [y] && SortByPath([x]) == [x];
  }

  lemma MapRoutesPair(first: Fgtech, second: Fgtech)
    ensures MapRoutes([first, second]) == [RouteFor(first), RouteFor(second)]
  {
    assert [first, second][..1] == [first];
  }

  lemma AppsTrimExample()
    ensures Trim("/apps", IsSpace) == "/apps" && Trim("/apps", IsSlash) == "apps"
  {
    AppsBlankTrimExample();
    TrimKeeps("/apps", IsSlash, 1, 5);
  }

  lemma AppsBlankTrimExample()
    ensures Trim("/apps", IsSpace) == "/apps"
  {
    TrimKeeps("/apps", IsSpace, 0, 5);
  }

  lemma AlphaRoutePath(alpha: Fgtech)
    requires alpha.name == "alpha" && alpha.spec.extraPath == "/apps"
    ensures RouteFor(alpha).path == "/apps/alpha"
  {
    AppsTrimExample();
    RouteBaseOf("/apps", "/apps", "apps");
    assert "/" + "apps" + "/" + "alpha" == "/apps/alpha";
  }

  lemma ApiTrimExample()
    ensures Trim("/api/v1", IsSpace) == "/api/v1" && Trim("/api/v1", IsSlash) == "api/v1"
  {
    TrimKeeps("/api/v1", IsSpace, 0, 7);
    TrimKeeps("/api/v1", IsSlash, 1, 7);
  }

  lemma BetaRoutePath(beta: Fgtech)
    requires beta.name == "beta" && beta.spec.extraPath == "/api/v1"
    ensures RouteFor(beta).path == "/api/v1/beta"
  {
    ApiTrimExample();
    RouteBaseOf("/api/v1", "/api/v1", "api/v1");
  }

  /** Go's string order puts "/api/v1/beta" before "/apps/alpha". */
  lemma ApiBeforeApps()
    ensures !PathLe("/apps/alpha", "/api/v1/beta")
  {
    assert "/apps/alpha"[1..] == "apps/alpha" && "/api/v1/beta"[1..] == "api/v1/beta";
    assert "apps/alpha"[1..] == "pps/alpha" && "api/v1/beta"[1..] == "pi/v1/beta";
  }

  /** The two instances of the repository's ingress test: beta's route comes
      first, backed by beta's service. */
  lemma RoutesExample(alpha: Fgtech, beta: Fgtech)
    requires alpha.name == "alpha" && alpha.spec.extraPath == "/apps"
    requires beta.name == "beta" && beta.spec.extraPath == "/api/v1"
    ensures var routes := Routes([alpha, beta]);
            && |routes| == 2 && routes[0].path == "/api/v1/beta" && routes[1].path == "/apps/alpha"
            && routes[0].backend.service == Some(ServiceBackend(PodManager.ServiceNameFor(beta), 80))
  {
    AlphaRoutePath(alpha);
    BetaRoutePath(beta);
    ApiBeforeApps();
    MapRoutesPair(alpha, beta);
    var a, b := RouteFor(alpha), RouteFor(beta);
    SortTwo(a, b);
    assert Routes([alpha, beta]) == [b, a];
  }

  /** ingressEqual ignores the path type of every path. */
  lemma PathTypeNotCompared(cfg: IngressSettings, routes: seq<HttpPath>, other: seq<HttpPath>, e: IngressSpec)
    requires |other| == |routes|
    requires forall i :: 0 <= i < |routes| ==> other[i] == routes[i].(pathType := other[i].pathType)
    ensures SpecsEqual(e, DesiredSpec(cfg, routes)) <==> SpecsEqual(e, DesiredSpec(cfg, other))
  {
  }

  /** A missing default backend, or one without a service, on either side
      makes the two specs unequal. */
  lemma MissingBackendIsUnequal(e: IngressSpec, d: IngressSpec)
    requires e.defaultBackend.None? || d.defaultBackend.None?
             || (e.defaultBackend.Some? && e.defaultBackend.value.service.None?)
             || (d.defaultBackend.Some? && d.defaultBackend.value.service.None?)
    ensures !SpecsEqual(e, d)
  {
  }

  /** With a class and a TLS secret configured, applySpec on any ingress gives
      a spec equal to the desired one, provided every route names a service. */
  lemma ApplySpecConverges(cfg: IngressSettings, spec: IngressSpec, routes: seq<HttpPath>)
    requires cfg.className != "" && cfg.tlsSecret != ""
    requires forall r :: r in routes ==> r.backend.service.Some?
    ensures SpecsEqual(ApplySpec(cfg, spec, routes), DesiredSpec(cfg, routes))
  {
    var a, d := ApplySpec(cfg, spec, routes), DesiredSpec(cfg, routes);
    assert a.rules == d.rules;
    if routes != [] {
      assert forall j :: 0 <= j < |routes| ==> routes[j] in routes;
    }
  }

  /** Without a configured class, an ingress that carries one is drifted
      forever: applySpec keeps the class, and the desired spec has none. */
  lemma StrayClassNeverConverges(cfg: IngressSettings, ing: Ingress, routes: seq<HttpPath>)
    requires cfg.className == "" && ing.spec.className.Some?
    ensures IngressDrifted(cfg, ing, routes)
    ensures IngressDrifted(cfg, ing.(spec := ApplySpec(cfg, ing.spec, routes)), routes)
  {
  }

  /** ensureBackendPod: creates the pod only when absent, and issues no write
      when it exists and can be read. */
  lemma BackendPodStage(s: StoreState, ns: string)
    ensures var b := EnsureBackendPodSpec(s, ns);
            && Extends(s, b.state) && ErrorsAreFaults(s, b)
            && b.state.services == s.services && b.state.ingresses == s.ingresses && b.state.instances == s.instances
            && (b.state.pods == s.pods || (BackendKey(ns) !in s.pods && b.state.pods == s.pods[BackendKey(ns) := BackendPod()]))
            && (b.result.Ok? ==> BackendKey(ns) in b.state.pods && Get(Ref(PodKind, BackendKey(ns))) !in s.faults)
            && (BackendKey(ns) in s.pods && Get(Ref(PodKind, BackendKey(ns))) !in s.faults ==> b.result.Ok? && Quiet(s, b.state))
  {
  }

  /** ensureBackendService: the same as for the pod. */
  lemma BackendServiceStage(s: StoreState, ns: string)
    ensures var b := EnsureBackendServiceSpec(s, ns);
            && Extends(s, b.state) && ErrorsAreFaults(s, b)
            && b.state.pods == s.pods && b.state.ingresses == s.ingresses && b.state.instances == s.instances
            && (b.state.services == s.services || (BackendKey(ns) !in s.services && b.state.services == s.services[BackendKey(ns) := BackendService()]))
            && (b.result.Ok? ==> BackendKey(ns) in b.state.services && Get(Ref(ServiceKind, BackendKey(ns))) !in s.faults)
            && (BackendKey(ns) in s.services && Get(Ref(ServiceKind, BackendKey(ns))) !in s.faults ==> b.result.Ok? && Quiet(s, b.state))
  {
  }

  /** ensureDefaultBackend: the pod first, then the service. */
  lemma DefaultBackendStage(s: StoreState, ns: string)
    ensures var b := EnsureDefaultBackendSpec(s, ns);
            && Extends(s, b.state) && ErrorsAreFaults(s, b)
            && b.state.ingresses == s.ingresses && b.state.instances == s.instances
            && (b.state.pods == s.pods || (BackendKey(ns) !in s.pods && b.state.pods == s.pods[BackendKey(ns) := BackendPod()]))
            && (b.state.services == s.services || (BackendKey(ns) !in s.services && b.state.services == s.services[BackendKey(ns) := BackendService()]))
            && (b.result.Ok? ==> BackendReady(s, b.state, ns))
            && (BackendReady(s, s, ns) ==> b.result.Ok? && Quiet(s, b.state))
  {
    var p := EnsureBackendPodSpec(s, ns);
    BackendPodStage(s, ns);
    if p.result.Ok? {
      BackendServiceStage(p.state, ns);
      ExtendsTransitive(s, p.state, EnsureBackendServiceSpec(p.state, ns).state);
      if BackendReady(s, s, ns) {
        QuietTransitive(s, p.state, EnsureBackendServiceSpec(p.state, ns).state);
      }
    }
  }

  /** The backend pod and service exist in `t` and reading them does not fail. */
  predicate BackendReady(s: StoreState, t: StoreState, ns: string)
  {
    && BackendKey(ns) in t.pods && BackendKey(ns) in t.services
    && Get(Ref(PodKind, BackendKey(ns))) !in s.faults && Get(Ref(ServiceKind, BackendKey(ns))) !in s.faults
  }

  /** The ingress SyncNamespace leaves behind when it succeeds. */
  function ConvergedIngress(cfg: IngressSettings, s: StoreState, ns: string, routes: seq<HttpPath>): Ingress
  {
    if IngressKey(ns) !in s.ingresses then BuildIngress(cfg, routes)
    else
      var ing := s.ingresses[IngressKey(ns)];
      if IngressDrifted(cfg, ing, routes) then ing.(spec := ApplySpec(cfg, ing.spec, routes)) else ing
  }

  /** Creating or updating the ingress: only that one ingress is written, and
      nothing is written when it exists and is not drifted. */
  lemma IngressStage(cfg: IngressSettings, s: StoreState, ns: string, routes: seq<HttpPath>)
    ensures var w := ConvergeIngressSpec(cfg, s, ns, routes);
            && Extends(s, w.state) && ErrorsAreFaults(s, w)
            && w.state.pods == s.pods && w.state.services == s.services && w.state.instances == s.instances
            && w.state.ingresses - {IngressKey(ns)} == s.ingresses - {IngressKey(ns)}
            && (w.result.Ok? ==>
                  && IngressKey(ns) in w.state.ingresses && Get(Ref(IngressKind, IngressKey(ns))) !in s.faults
                  && w.state.ingresses[IngressKey(ns)] == ConvergedIngress(cfg, s, ns, routes))
            && ((IngressKey(ns) in s.ingresses && !IngressDrifted(cfg, s.ingresses[IngressKey(ns)], routes)
                 && Get(Ref(IngressKind, IngressKey(ns))) !in s.faults) ==> w.result.Ok? && Quiet(s, w.state))
  {
    var k := IngressKey(ns);
    var w := ConvergeIngressSpec(cfg, s, ns, routes);
    var g := Issue(s, Get(Ref(IngressKind, k)));
    if Get(Ref(IngressKind, k)) in s.faults {
      assert w.state == g;
    } else if k in s.ingresses {
      assert w.state.ingresses - {k} == s.ingresses - {k};
    } else {
      assert w == CreateIngress(g, k, BuildIngress(cfg, routes));
    }
  }

  /** Without a host, SyncNamespace fails with no store call; otherwise every
      error it returns is a faulted call, the last one it issued. */
  lemma SyncErrors(cfg: IngressSettings, s: StoreState, ns: string)
    ensures var t := SyncSpec(cfg, s, ns);
            && Extends(s, t.state)
            && (cfg.host == "" ==> t == Step(s, Err(Invalid(HostMissing))))
            && (cfg.host != "" ==> ErrorsAreFaults(s, t))
  {
    if cfg.host != "" {
      var b := EnsureDefaultBackendSpec(s, ns);
      DefaultBackendStage(s, ns);
      if b.result.Ok? {
        var c := CollectRoutesSpec(b.state, ns);
        ExtendsTransitive(s, b.state, c.state);
        if c.result.Ok? {
          IngressStage(cfg, c.state, ns, c.result.value);
          ExtendsTransitive(s, c.state, ConvergeIngressSpec(cfg, c.state, ns, c.result.value).state);
        }
      }
    }
  }

  /** SyncNamespace writes only the backend pod and service, which it creates
      when absent and never changes, and the namespace's ingress. */
  lemma SyncFrame(cfg: IngressSettings, s: StoreState, ns: string)
    ensures var t := SyncSpec(cfg, s, ns).state;
            && t.instances == s.instances
            && (t.pods == s.pods || (BackendKey(ns) !in s.pods && t.pods == s.pods[BackendKey(ns) := BackendPod()]))
            && (t.services == s.services || (BackendKey(ns) !in s.services && t.services == s.services[BackendKey(ns) := BackendService()]))
            && t.ingresses - {IngressKey(ns)} == s.ingresses - {IngressKey(ns)}
  {
    if cfg.host != "" {
      var b := EnsureDefaultBackendSpec(s, ns);
      DefaultBackendStage(s, ns);
      if b.result.Ok? {
        var c := CollectRoutesSpec(b.state, ns);
        if c.result.Ok? {
          IngressStage(cfg, c.state, ns, c.result.value);
        }
      }
    }
  }

  /** What a successful SyncNamespace leaves: the backend pod and service, and
      the ingress created from the desired spec, updated by applySpec when it
      was drifted, or untouched. */
  lemma SyncResult(cfg: IngressSettings, s: StoreState, ns: string)
    requires SyncSpec(cfg, s, ns).result.Ok?
    ensures var t := SyncSpec(cfg, s, ns).state;
            && BackendReady(s, t, ns) && List(Some(ns)) !in s.faults
            && IngressKey(ns) in t.ingresses && Get(Ref(IngressKind, IngressKey(ns))) !in s.faults
            && t.ingresses[IngressKey(ns)] == ConvergedIngress(cfg, s, ns, Routes(InNamespace(s.instances, Some(ns))))
  {
    var b := EnsureDefaultBackendSpec(s, ns);
    DefaultBackendStage(s, ns);
    var c := CollectRoutesSpec(b.state, ns);
    IngressStage(cfg, c.state, ns, c.result.value);
  }

  /** The namespace is converged: backend present, ingress present and equal
      to the desired spec for the current instances, and none of the reads
      SyncNamespace issues fails. */
  predicate SyncConverged(cfg: IngressSettings, t: StoreState, ns: string)
  {
    && cfg.host != ""
    && BackendReady(t, t, ns)
    && List(Some(ns)) !in t.faults
    && IngressKey(ns) in t.ingresses && Get(Ref(IngressKind, IngressKey(ns))) !in t.faults
    && !IngressDrifted(cfg, t.ingresses[IngressKey(ns)], Routes(InNamespace(t.instances, Some(ns))))
  }

  /** On a converged namespace SyncNamespace succeeds and writes nothing. */
  lemma ConvergedSyncIsQuiet(cfg: IngressSettings, t: StoreState, ns: string)
    requires SyncConverged(cfg, t, ns)
    ensures SyncSpec(cfg, t, ns).result.Ok? && Quiet(t, SyncSpec(cfg, t, ns).state)
  {
    var b := EnsureDefaultBackendSpec(t, ns);
    DefaultBackendStage(t, ns);
    var c := CollectRoutesSpec(b.state, ns);
    var routes := c.result.value;
    assert routes == Routes(InNamespace(t.instances, Some(ns)));
    IngressStage(cfg, c.state, ns, routes);
    assert Quiet(b.state, c.state);
    QuietTransitive(t, b.state, c.state);
    QuietTransitive(t, c.state, ConvergeIngressSpec(cfg, c.state, ns, routes).state);
  }

  /** Idempotence: with a class and a TLS secret configured, a successful
      SyncNamespace leaves the namespace converged, so a second one succeeds
      and writes nothing. */
  lemma SyncIdempotent(cfg: IngressSettings, s: StoreState, ns: string)
    requires cfg.className != "" && cfg.tlsSecret != ""
    requires SyncSpec(cfg, s, ns).result.Ok?
    ensures SyncConverged(cfg, SyncSpec(cfg, s, ns).state, ns)
    ensures var t := SyncSpec(cfg, s, ns).state;
            var u := SyncSpec(cfg, t, ns);
            u.result.Ok? && Quiet(t, u.state)
  {
    var t := SyncSpec(cfg, s, ns).state;
    var routes := Routes(InNamespace(s.instances, Some(ns)));
    SyncErrors(cfg, s, ns);
    SyncFrame(cfg, s, ns);
    SyncResult(cfg, s, ns);
    RoutesAreOnePerInstance(InNamespace(s.instances, Some(ns)));
    if IngressKey(ns) !in s.ingresses || IngressDrifted(cfg, s.ingresses[IngressKey(ns)], routes) {
      ApplySpecConverges(cfg, if IngressKey(ns) in s.ingresses then s.ingresses[IngressKey(ns)].spec else EmptySpec, routes);
    }
    assert !IngressDrifted(cfg, t.ingresses[IngressKey(ns)], routes);
    assert SyncConverged(cfg, t, ns);
    ConvergedSyncIsQuiet(cfg, t, ns);
  }

  // ---------------------------------------------------------------------------
  // The manager
  // ---------------------------------------------------------------------------

  class Manager {
    const client: StoreClient.Client
    const settings: IngressSettings

    constructor (client: StoreClient.Client, settings: IngressSettings)
      ensures this.client == client && this.settings == settings
    {
      this.client := client;
      this.settings := settings;
    }

    method SyncNamespace(ns: string) returns (r: Result<(), Error>)
      modifies client
      ensures Step(client.State(), r) == SyncSpec(settings, old(client.State()), ns)
    {
      if settings.host == "" {
        return Err(Invalid(HostMissing));
      }
      r := EnsureDefaultBackend(ns);
      if r.Err? {
        return;
      }
      var routes := CollectRoutes(ns);
      if routes.Err? {
        return Err(routes.error);
      }
      var existing := client.GetIngress(IngressKey(ns));
      if existing.Err? {
        if existing.error.NotFound? {
          r := client.CreateIngress(IngressKey(ns), BuildIngress(settings, routes.value));
          return;
        }
        return Err(existing.error);
      }
      var stale := NeedsUpdate(existing.value, routes.value);
      if stale {
        var updated := existing.value.(spec := ApplySpec(settings, existing.value.spec, routes.value));
        r := client.UpdateIngress(IngressKey(ns), updated);
        return;
      }
      return Ok(());
    }

    method CollectRoutes(ns: string) returns (r: Result<seq<HttpPath>, Error>)
      modifies client
      ensures Step(client.State(), r) == CollectRoutesSpec(old(client.State()), ns)
    {
      var listed := client.ListInstances(Some(ns));
      if listed.Err? {
        return Err(listed.error);
      }
      var items := listed.value;
      ghost var listedState := client.State();
      var paths: seq<HttpPath> := [];
      var i := 0;
      while i < |items|
        invariant 0 <= i <= |items|
        invariant client.State() == listedState
        invariant paths == MapRoutes(items[..i])
      {
        MapRoutesSnoc(items, i);
        paths := paths + [RouteFor(items[i])];
        i := i + 1;
      }
      assert items[..|items|] == items;
      CollectedRoutes(old(client.State()), ns, paths);
      paths := SortByPath(paths);
      return Ok(paths);
    }

    method NeedsUpdate(ing: Ingress, routes: seq<HttpPath>) returns (stale: bool)
      ensures stale == IngressDrifted(settings, ing, routes)
    {
      var desired := ApplySpec(settings, EmptySpec, routes);
      var equal := IngressEqual(ing.spec, desired);
      return !equal;
    }

    method EnsureDefaultBackend(ns: string) returns (r: Result<(), Error>)
      modifies client
      ensures Step(client.State(), r) == EnsureDefaultBackendSpec(old(client.State()), ns)
    {
      r := EnsureBackendPod(ns);
      if r.Err? {
        return;
      }
      r := EnsureBackendService(ns);
    }

    method EnsureBackendPod(ns: string) returns (r: Result<(), Error>)
      modifies client
      ensures Step(client.State(), r) == EnsureBackendPodSpec(old(client.State()), ns)
    {
      var existing := client.GetPod(BackendKey(ns));
      if existing.Err? {
        if existing.error.NotFound? {
          r := client.CreatePod(BackendKey(ns), BackendPod());
          return;
        }
        return Err(existing.error);
      }
      return Ok(());
    }

    method EnsureBackendService(ns: string) returns (r: Result<(), Error>)
      modifies client
      ensures Step(client.State(), r) == EnsureBackendServiceSpec(old(client.State()), ns)
    {
      var existing := client.GetService(BackendKey(ns));
      if existing.Err? {
        if existing.error.NotFound? {
          r := client.CreateService(BackendKey(ns), BackendService());
          return;
        }
        return Err(existing.error);
      }
      return Ok(());
    }
  }
}
