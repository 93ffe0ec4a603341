/** pkg/pod: the worker pod and the service of one Fgtech instance.

    The pure helpers derive the desired pod and service and decide drift;
    Manager.Ensure and Manager.EnsureService converge the store towards them,
    one client call at a time. EnsureSpec and EnsureServiceSpec say what those
    two methods do to a store value. */
module PodManager {
  import opened Wrappers
  import opened Api
  import opened Objects
  import opened StoreModel
  import StoreClient

  const VersionEnv := "FGTECH_VERSION"
  const AppLabel := "app"
  const AppName := "fgtech"
  const NameLabel := "fgtech-name"
  const VersionLabel := "fgtech-version"
  const ContainerName := "fgtech"
  const HttpPortName := "http"
  const KubeConfigVolume := "kube-config"
  const KubeConfigSecret := "k8sconfig"
  const KubeConfigMountPath := "/home/clovers/.kube"
  const ServicePortNumber := 80
  const ClusterIP := "ClusterIP"
  const FallbackServiceAccount := "default"

  /** The process-wide defaults a Manager is built with. */
  datatype PodSettings = PodSettings(defaultTTLSeconds: Int64, defaultSA: string, defaultPort: Int32)

  // ---------------------------------------------------------------------------
  // TTL and identity policy
  // ---------------------------------------------------------------------------

  predicate HasPositiveOverride(fg: Fgtech)
  {
    fg.spec.ttlSeconds.Some? && fg.spec.ttlSeconds.value > 0
  }

  /** The effective TTL: the spec's override when positive, otherwise the
      default when positive, otherwise 0 (no expiry). */
  function ResolveTTLSeconds(fg: Fgtech, defaultTTLSeconds: Int64): (ttl: Int64)
    ensures ttl >= 0
    ensures HasPositiveOverride(fg) ==> ttl == fg.spec.ttlSeconds.value
    ensures !HasPositiveOverride(fg) && defaultTTLSeconds > 0 ==> ttl == defaultTTLSeconds
    ensures !HasPositiveOverride(fg) && defaultTTLSeconds <= 0 ==> ttl == 0
  {
    if HasPositiveOverride(fg) then fg.spec.ttlSeconds.value
    else if defaultTTLSeconds > 0 then defaultTTLSeconds
    else 0
  }

  /** The pod's active deadline: nil exactly when no TTL applies. */
  function TtlPointer(fg: Fgtech, defaultTTLSeconds: Int64): (deadline: Option<Int64>)
    ensures deadline.None? <==> ResolveTTLSeconds(fg, defaultTTLSeconds) == 0
    ensures deadline.Some? ==> deadline.value > 0 && deadline.value == ResolveTTLSeconds(fg, defaultTTLSeconds)
  {
    var ttl := ResolveTTLSeconds(fg, defaultTTLSeconds);
    if ttl <= 0 then None else Some(ttl)
  }

  /** The pod's service account: the spec's, else the default, else "default". */
  function ResolveServiceAccount(fg: Fgtech, defaultSA: string): (sa: string)
    ensures sa != ""
    ensures fg.spec.serviceAccount != "" ==> sa == fg.spec.serviceAccount
    ensures fg.spec.serviceAccount == "" && defaultSA != "" ==> sa == defaultSA
    ensures fg.spec.serviceAccount == "" && defaultSA == "" ==> sa == FallbackServiceAccount
  {
    if fg.spec.serviceAccount != "" then fg.spec.serviceAccount
    else if defaultSA != "" then defaultSA
    else FallbackServiceAccount
  }

  // ---------------------------------------------------------------------------
  // Names
  // ---------------------------------------------------------------------------

  function PodNameFor(fg: Fgtech): (name: string)
    ensures |name| == |fg.name| + 4 && name[..|fg.name|] == fg.name && name[|fg.name|..] == "-pod"
  {
    fg.name + "-pod"
  }

  function ServiceNameFor(fg: Fgtech): (name: string)
    ensures |name| == |fg.name| + 4 && name[..|fg.name|] == fg.name && name[|fg.name|..] == "-svc"
  {
    fg.name + "-svc"
  }

  function PodKey(fg: Fgtech): Key
  {
    Key(fg.namespace, PodNameFor(fg))
  }

  function ServiceKey(fg: Fgtech): Key
  {
    Key(fg.namespace, ServiceNameFor(fg))
  }

  /** Different instance names never share a pod name or a service name, and a
      pod name is never a service name. */
  lemma DerivedNamesInjective(a: Fgtech, b: Fgtech)
    ensures PodNameFor(a) == PodNameFor(b) <==> a.name == b.name
    ensures ServiceNameFor(a) == ServiceNameFor(b) <==> a.name == b.name
    ensures PodNameFor(a) != ServiceNameFor(b)
  {
    if PodNameFor(a) == PodNameFor(b) {
      assert a.name == PodNameFor(a)[..|a.name|] == PodNameFor(b)[..|b.name|] == b.name;
    }
    if ServiceNameFor(a) == ServiceNameFor(b) {
      assert a.name == ServiceNameFor(a)[..|a.name|] == ServiceNameFor(b)[..|b.name|] == b.name;
    }
  }

  // ---------------------------------------------------------------------------
  // The desired pod and its drift check
  // ---------------------------------------------------------------------------

  /** The pod buildPod produces (the owner reference is attached by Ensure). */
  function BuildPod(fg: Fgtech, st: PodSettings): (pod: Pod)
    ensures |pod.spec.containers| == 1
    ensures pod.spec.containers[0].image == fg.spec.image
    ensures pod.spec.containers[0].env == [EnvVar(VersionEnv, fg.spec.version)]
    ensures pod.spec.containers[0].ports == [ContainerPort(HttpPortName, st.defaultPort)]
    ensures pod.spec.activeDeadlineSeconds == TtlPointer(fg, st.defaultTTLSeconds)
    ensures pod.spec.serviceAccountName == ResolveServiceAccount(fg, st.defaultSA)
    ensures pod.labels == map[AppLabel := AppName, NameLabel := fg.name, VersionLabel := fg.spec.version]
    ensures Lookup(pod.labels, VersionLabel) == fg.spec.version && Lookup(pod.labels, NameLabel) == fg.name
    ensures pod.spec.volumes == [Volume(KubeConfigVolume, KubeConfigSecret)]
    ensures pod.owner.None?
  {
    Pod(
      map[AppLabel := AppName, NameLabel := fg.name, VersionLabel := fg.spec.version],
      None,
      PodSpec(
        TtlPointer(fg, st.defaultTTLSeconds),
        ResolveServiceAccount(fg, st.defaultSA),
        [Volume(KubeConfigVolume, KubeConfigSecret)],
        [Container(
           ContainerName,
           fg.spec.image,
           [EnvVar(VersionEnv, fg.spec.version)],
           [ContainerPort(HttpPortName, st.defaultPort)],
           [VolumeMount(KubeConfigVolume, KubeConfigMountPath)])]))
  }

  /** The env check of podNeedsUpdate: no FGTECH_VERSION entry, or some
      FGTECH_VERSION entry whose value is not `version`. */
  predicate VersionEnvDrifted(env: seq<EnvVar>, version: string)
  {
    || (forall i :: 0 <= i < |env| ==> env[i].name != VersionEnv)
    || (exists i :: 0 <= i < |env| && env[i].name == VersionEnv && env[i].value != version)
  }

  /** When podNeedsUpdate answers true: only the first container is examined,
      and a missing version label reads as "". */
  predicate PodDrifted(pod: Pod, fg: Fgtech, st: PodSettings)
  {
    if |pod.spec.containers| == 0 then true
    else
      var c := pod.spec.containers[0];
      || c.image != fg.spec.image
      || |c.ports| != 1 || c.ports[0].containerPort != st.defaultPort
      || VersionEnvDrifted(c.env, fg.spec.version)
      || Lookup(pod.labels, VersionLabel) != fg.spec.version
      || pod.spec.activeDeadlineSeconds != TtlPointer(fg, st.defaultTTLSeconds)
      || pod.spec.serviceAccountName != ResolveServiceAccount(fg, st.defaultSA)
  }

  /** podNeedsUpdate, with its scan of the environment. */
  method PodNeedsUpdate(pod: Pod, fg: Fgtech, st: PodSettings) returns (drifted: bool)
    ensures drifted == PodDrifted(pod, fg, st)
  {
    if |pod.spec.containers| == 0 {
      return true;
    }
    var c := pod.spec.containers[0];
    if c.image != fg.spec.image {
      return true;
    }
    if |c.ports| != 1 || c.ports[0].containerPort != st.defaultPort {
      return true;
    }
    var hasVersionEnv := false;
    var i := 0;
    while i < |c.env|
      invariant 0 <= i <= |c.env|
      invariant hasVersionEnv <==> exists j :: 0 <= j < i && c.env[j].name == VersionEnv
      invariant forall j :: 0 <= j < i && c.env[j].name == VersionEnv ==> c.env[j].value == fg.spec.version
    {
      if c.env[i].name == VersionEnv {
        hasVersionEnv := true;
        if c.env[i].value != fg.spec.version {
          return true;
        }
      }
      i := i + 1;
    }
    if !hasVersionEnv {
      return true;
    }
    if Lookup(pod.labels, VersionLabel) != fg.spec.version {
      return true;
    }
    var expectedTTL := TtlPointer(fg, st.defaultTTLSeconds);
    if pod.spec.activeDeadlineSeconds.None? != expectedTTL.None? {
      return true;
    }
    if expectedTTL.Some? && pod.spec.activeDeadlineSeconds.Some? && pod.spec.activeDeadlineSeconds.value != expectedTTL.value {
      return true;
    }
    if pod.spec.serviceAccountName != ResolveServiceAccount(fg, st.defaultSA) {
      return true;
    }
    return false;
  }

  /** A freshly built pod never needs an update, whoever owns it. */
  lemma BuiltPodNotDrifted(fg: Fgtech, st: PodSettings, owner: Option<string>)
    ensures !PodDrifted(BuildPod(fg, st).(owner := owner), fg, st)
  {
    var env := BuildPod(fg, st).spec.containers[0].env;
    assert env[0].name == VersionEnv;
  }

  /** Changing the image, the version or the resolved deadline or account of
      an instance makes its current pod drift. */
  lemma SpecChangeDrifts(fg: Fgtech, fg': Fgtech, st: PodSettings)
    requires || fg'.spec.image != fg.spec.image
             || fg'.spec.version != fg.spec.version
             || TtlPointer(fg', st.defaultTTLSeconds) != TtlPointer(fg, st.defaultTTLSeconds)
             || ResolveServiceAccount(fg', st.defaultSA) != ResolveServiceAccount(fg, st.defaultSA)
    ensures PodDrifted(BuildPod(fg, st), fg', st)
  {
    var env := BuildPod(fg, st).spec.containers[0].env;
    if fg'.spec.version != fg.spec.version {
      assert env[0].name == VersionEnv && env[0].value != fg'.spec.version;
    }
  }

  // ---------------------------------------------------------------------------
  // The desired service and its drift check
  // ---------------------------------------------------------------------------

  function ExpectedSelector(fg: Fgtech): map<string, string>
  {
    map[NameLabel := fg.name]
  }

  /** updateServiceFields, on the copy it is given: it sets the selector, the
      single port 80 -> defaultPort and the type ClusterIP, and keeps the rest. */
  function UpdateServiceFields(svc: Service, fg: Fgtech, defaultPort: Int32): (updated: Service)
    ensures updated.labels == svc.labels && updated.owner == svc.owner
    ensures updated.spec.selector == ExpectedSelector(fg)
    ensures updated.spec.ports == [ServicePort(HttpPortName, ServicePortNumber, defaultPort)]
    ensures updated.spec.serviceType == ClusterIP
    ensures !ServiceDrifted(updated, fg, defaultPort)
  {
    svc.(spec := ServiceSpec(ExpectedSelector(fg), [ServicePort(HttpPortName, ServicePortNumber, defaultPort)], ClusterIP))
  }

  function BuildService(fg: Fgtech, defaultPort: Int32): (svc: Service)
    ensures svc.labels == map[AppLabel := AppName, NameLabel := fg.name] && svc.owner.None?
    ensures !ServiceDrifted(svc, fg, defaultPort)
  {
    UpdateServiceFields(Service(map[AppLabel := AppName, NameLabel := fg.name], None, ServiceSpec(map[], [], "")), fg, defaultPort)
  }

  /** When serviceNeedsUpdate answers true, with the selector compared by
      map equality (see MapsEqual). */
  predicate ServiceDrifted(svc: Service, fg: Fgtech, defaultPort: Int32)
  {
    || svc.spec.selector != ExpectedSelector(fg)
    || |svc.spec.ports| != 1
    || svc.spec.ports[0].port != ServicePortNumber || svc.spec.ports[0].targetPort != defaultPort
    || svc.spec.serviceType != ClusterIP
  }

  /** serviceNeedsUpdate. */
  method ServiceNeedsUpdate(svc: Service, fg: Fgtech, defaultPort: Int32) returns (drifted: bool)
    ensures drifted == ServiceDrifted(svc, fg, defaultPort)
  {
    var sameSelector := MapsEqual(svc.spec.selector, ExpectedSelector(fg));
    if !sameSelector {
      return true;
    }
    if |svc.spec.ports| != 1 {
      return true;
    }
    var port := svc.spec.ports[0];
    if port.port != ServicePortNumber || port.targetPort != defaultPort {
      return true;
    }
    if svc.spec.serviceType != ClusterIP {
      return true;
    }
    return false;
  }

  // ---------------------------------------------------------------------------
  // mapsEqual, as written and corrected
  // ---------------------------------------------------------------------------

  /** What mapsEqual computes: equal sizes, and every entry of `a` matched by
      `b[k]`, which is "" for a key missing from `b`. */
  predicate GoMapsEqual(a: map<string, string>, b: map<string, string>)
  {
    |a| == |b| && forall k :: k in a ==> Lookup(b, k) == a[k]
  }

  /** mapsEqual as written: `b[k] != v` treats a key missing from `b` as "". */
  method MapsEqualAsWritten(a: map<string, string>, b: map<string, string>) returns (equal: bool)
    ensures equal == GoMapsEqual(a, b)
  {
    if |a| != |b| {
      return false;
    }
    var keys := a.Keys;
    while keys != {}
      invariant keys <= a.Keys
      invariant forall k :: k in a && k !in keys ==> Lookup(b, k) == a[k]
      decreases keys
    {
      var k :| k in keys;
      if Lookup(b, k) != a[k] {
        return false;
      }
      keys := keys - {k};
    }
    return true;
  }

  /** mapsEqual as intended: true exactly when the two maps are equal. */
  method MapsEqual(a: map<string, string>, b: map<string, string>) returns (equal: bool)
    ensures equal <==> a == b
  {
    if |a| != |b| {
      return false;
    }
    var keys := a.Keys;
    while keys != {}
      invariant keys <= a.Keys
      invariant forall k :: k in a && k !in keys ==> k in b && b[k] == a[k]
      decreases keys
    {
      var k :| k in keys;
      if k !in b || b[k] != a[k] {
        return false;
      }
      keys := keys - {k};
    }
    SubmapOfSameSize(a, b);
    return true;
  }

  /** A map included in another of the same size is that map. */
  lemma SubmapOfSameSize(a: map<string, string>, b: map<string, string>)
    requires |a| == |b|
    requires forall k :: k in a ==> k in b && b[k] == a[k]
    ensures a == b
  {
    assert a.Keys <= b.Keys;
    assert |a.Keys| == |a| && |b.Keys| == |b|;
    SubsetOfSameSize(a.Keys, b.Keys);
  }

  lemma SubsetOfSameSize(x: set<string>, y: set<string>)
    requires x <= y && |x| == |y|
    ensures x == y
  {
    assert y * x == x;
    assert |y - x| == |y| - |y * x| == 0;
    assert y - x == {};
  }

  /** The two comparisons agree whenever no selector value is empty. */
  lemma GoMapsEqualExactWithoutEmptyValues(a: map<string, string>, b: map<string, string>)
    requires forall k :: k in a ==> a[k] != ""
    ensures GoMapsEqual(a, b) <==> a == b
  {
    if GoMapsEqual(a, b) {
      SubmapOfSameSize(a, b);
    }
  }

  /** The selector {"app": ""} passes as written for an instance named "demo". */
  lemma GoMapsEqualAcceptsForeignSelector()
    ensures GoMapsEqual(map["app" := ""], ExpectedSelector(Fgtech("demo", "default", 0, FgtechSpec("1.0.0", "nginx", "", None, ""))))
    ensures map["app" := ""] != ExpectedSelector(Fgtech("demo", "default", 0, FgtechSpec("1.0.0", "nginx", "", None, "")))
  {
    var expected := ExpectedSelector(Fgtech("demo", "default", 0, FgtechSpec("1.0.0", "nginx", "", None, "")));
    assert "app" !in expected;
  }

  /** serviceNeedsUpdate as written, with mapsEqual as written. */
  predicate ServiceDriftedAsWritten(svc: Service, fg: Fgtech, defaultPort: Int32)
  {
    || !GoMapsEqual(svc.spec.selector, ExpectedSelector(fg))
    || |svc.spec.ports| != 1
    || svc.spec.ports[0].port != ServicePortNumber || svc.spec.ports[0].targetPort != defaultPort
    || svc.spec.serviceType != ClusterIP
  }

  /** As written, a service selecting {"app": ""} is never corrected, although
      it does not select the instance's pod. */
  lemma ForeignSelectorNeverCorrected(defaultPort: Int32)
    ensures var fg := Fgtech("demo", "default", 0, FgtechSpec("1.0.0", "nginx", "", None, ""));
            var svc := Service(map[], None, ServiceSpec(map["app" := ""], [ServicePort(HttpPortName, ServicePortNumber, defaultPort)], ClusterIP));
            !ServiceDriftedAsWritten(svc, fg, defaultPort) && ServiceDrifted(svc, fg, defaultPort)
  {
    GoMapsEqualAcceptsForeignSelector();
  }

  /** The corrected drift check answers as serviceNeedsUpdate as written does
      on every service whose selector has no empty value; the two differ only
      on selectors like the one above. */
  lemma ServiceDriftAgreesWithoutEmptyValues(svc: Service, fg: Fgtech, defaultPort: Int32)
    requires forall k :: k in svc.spec.selector ==> svc.spec.selector[k] != ""
    ensures ServiceDriftedAsWritten(svc, fg, defaultPort) <==> ServiceDrifted(svc, fg, defaultPort)
  {
    GoMapsEqualExactWithoutEmptyValues(svc.spec.selector, ExpectedSelector(fg));
  }

  // ---------------------------------------------------------------------------
  // Ensure, as a function of the store
  // ---------------------------------------------------------------------------

  /** ensureService: create the service if absent, update it only on drift. */
  function EnsureServiceSpec(st: PodSettings, s: StoreState, fg: Fgtech): Step<()>
  {
    var key := ServiceKey(fg);
    var got := GetService(s, key);
    match got.result
    case Err(e) =>
      if e.NotFound? then CreateService(got.state, key, BuildService(fg, st.defaultPort).(owner := Some(fg.name)))
      else Step(got.state, Err(e))
    case Ok(svc) =>
      if ServiceDrifted(svc, fg, st.defaultPort) then UpdateService(got.state, key, UpdateServiceFields(svc, fg, st.defaultPort))
      else Step(got.state, Ok(()))
  }

  const RequeueNow := ReconcileResult(true, 0)

  /** Ensure: create the pod if absent; delete it and ask for a requeue if it
      drifted; otherwise converge the service. */
  function EnsureSpec(st: PodSettings, s: StoreState, fg: Fgtech): Step<ReconcileResult>
  {
    var key := PodKey(fg);
    var got := GetPod(s, key);
    match got.result
    case Err(e) =>
      if e.NotFound? then Then(CreatePod(got.state, key, BuildPod(fg, st).(owner := Some(fg.name))), Done)
      else Step(got.state, Err(e))
    case Ok(existing) =>
      if PodDrifted(existing, fg, st) then Then(DeletePod(got.state, key), RequeueNow)
      else Then(EnsureServiceSpec(st, got.state, fg), Done)
  }

  // ---------------------------------------------------------------------------
  // Properties of Ensure
  // ---------------------------------------------------------------------------

  /** ensureService: creates the service when absent, updates it only when
      drifted, and writes nothing else. */
  lemma EnsureServiceCases(st: PodSettings, s: StoreState, fg: Fgtech)
    ensures var r := EnsureServiceSpec(st, s, fg);
            var k := ServiceKey(fg);
            && Extends(s, r.state) && ErrorsAreFaults(s, r)
            && r.state.pods == s.pods && r.state.ingresses == s.ingresses && r.state.instances == s.instances
            && r.state.services - {k} == s.services - {k}
            && (r.result.Ok? ==> k in r.state.services && !ServiceDrifted(r.state.services[k], fg, st.defaultPort))
            && (k !in s.services && r.result.Ok? ==>
                  r.state.services[k] == BuildService(fg, st.defaultPort).(owner := Some(fg.name)))
            && (k in s.services && ServiceDrifted(s.services[k], fg, st.defaultPort) && r.result.Ok? ==>
                  r.state.services[k] == UpdateServiceFields(s.services[k], fg, st.defaultPort))
            && (k in s.services && !ServiceDrifted(s.services[k], fg, st.defaultPort) && Get(Ref(ServiceKind, k)) !in s.faults ==>
                  r.result.Ok? && Quiet(s, r.state))
  {
    var k := ServiceKey(fg);
    var r := EnsureServiceSpec(st, s, fg);
    if k in s.services {
      assert r.state.services - {k} == s.services - {k};
    }
  }

  /** Ensure's three ways: an absent pod is created and nothing else written;
      a drifted pod is deleted, a requeue asked for and the service left
      alone; otherwise the pod is left alone and the service converged. */
  lemma EnsureCases(st: PodSettings, s: StoreState, fg: Fgtech)
    ensures var r := EnsureSpec(st, s, fg);
            var k := PodKey(fg);
            && Extends(s, r.state) && ErrorsAreFaults(s, r)
            && r.state.ingresses == s.ingresses && r.state.instances == s.instances
            && r.state.pods - {k} == s.pods - {k}
            && (k !in s.pods ==>
                  && r.state.services == s.services
                  && (r.result.Ok? ==> r.result.value == Done && r.state.pods == s.pods[k := BuildPod(fg, st).(owner := Some(fg.name))]))
            && (k in s.pods && PodDrifted(s.pods[k], fg, st) ==>
                  && r.state.services == s.services
                  && (r.result.Ok? ==> r.result.value == RequeueNow && r.state.pods == s.pods - {k}))
            && (k in s.pods && !PodDrifted(s.pods[k], fg, st) ==>
                  && r.state.pods == s.pods
                  && (r.result.Ok? ==> r.result.value == Done))
  {
    var k := PodKey(fg);
    var got := GetPod(s, k);
    if k in s.pods && Get(Ref(PodKind, k)) !in s.faults {
      if !PodDrifted(s.pods[k], fg, st) {
        EnsureServiceCases(st, got.state, fg);
        ExtendsTransitive(s, got.state, EnsureServiceSpec(st, got.state, fg).state);
      } else {
        assert EnsureSpec(st, s, fg).state.pods - {k} == s.pods - {k};
      }
    }
  }

  /** Ensure either reports Done, or asks for a requeue after a delete, or
      fails with a faulted call, the last one it issued. */
  lemma EnsureOutcomes(st: PodSettings, s: StoreState, fg: Fgtech)
    ensures var r := EnsureSpec(st, s, fg);
            && Extends(s, r.state) && ErrorsAreFaults(s, r)
            && (r.result.Ok? ==> r.result.value == Done || r.result.value == RequeueNow)
  {
    EnsureCases(st, s, fg);
  }

  /** None of the calls Ensure can issue for this instance fails. */
  predicate NoFaultsFor(s: StoreState, fg: Fgtech)
  {
    forall c :: c in s.faults && !c.List? ==> c.ref != Ref(PodKind, PodKey(fg)) && c.ref != Ref(ServiceKind, ServiceKey(fg))
  }

  /** The pod and the service exist and neither has drifted. */
  predicate Converged(st: PodSettings, s: StoreState, fg: Fgtech)
  {
    && PodKey(fg) in s.pods && !PodDrifted(s.pods[PodKey(fg)], fg, st)
    && ServiceKey(fg) in s.services && !ServiceDrifted(s.services[ServiceKey(fg)], fg, st.defaultPort)
  }

  /** On a converged instance whose reads do not fail, Ensure reports done
      and writes nothing: this is the pod and service being left alone. */
  lemma ConvergedEnsureIsQuiet(st: PodSettings, s: StoreState, fg: Fgtech)
    requires Converged(st, s, fg)
    requires Get(Ref(PodKind, PodKey(fg))) !in s.faults && Get(Ref(ServiceKind, ServiceKey(fg))) !in s.faults
    ensures EnsureSpec(st, s, fg).result == Ok(Done)
    ensures Quiet(s, EnsureSpec(st, s, fg).state)
  {
    var got := GetPod(s, PodKey(fg));
    EnsureServiceCases(st, got.state, fg);
    QuietTransitive(s, got.state, EnsureServiceSpec(st, got.state, fg).state);
  }

  /** One fault-free Ensure moves an instance one step towards convergence:
      a missing pod is created undrifted, a drifted pod is removed, and an
      undrifted pod gets a converged service. */
  lemma EnsureProgress(st: PodSettings, s: StoreState, fg: Fgtech)
    requires NoFaultsFor(s, fg)
    ensures var t := EnsureSpec(st, s, fg);
            var k := PodKey(fg);
            && t.result.Ok? && NoFaultsFor(t.state, fg)
            && (k !in s.pods ==> k in t.state.pods && !PodDrifted(t.state.pods[k], fg, st) && t.result.value == Done)
            && (k in s.pods && PodDrifted(s.pods[k], fg, st) ==> k !in t.state.pods && t.result.value == RequeueNow)
            && (k in s.pods && !PodDrifted(s.pods[k], fg, st) ==> Converged(st, t.state, fg) && t.result.value == Done)
  {
    var k := PodKey(fg);
    assert Get(Ref(PodKind, k)) !in s.faults && Create(Ref(PodKind, k)) !in s.faults && Delete(Ref(PodKind, k)) !in s.faults;
    assert Get(Ref(ServiceKind, ServiceKey(fg))) !in s.faults && Create(Ref(ServiceKind, ServiceKey(fg))) !in s.faults;
    assert Update(Ref(ServiceKind, ServiceKey(fg))) !in s.faults;
    EnsureCases(st, s, fg);
    BuiltPodNotDrifted(fg, st, Some(fg.name));
    if k in s.pods && !PodDrifted(s.pods[k], fg, st) {
      EnsureServiceCases(st, GetPod(s, k).state, fg);
    }
  }

  /** Without faults, at most three Ensure calls converge an instance, and the
      next one is quiet: delete a drifted pod, create it, converge the service. */
  lemma EnsureConverges(st: PodSettings, s: StoreState, fg: Fgtech)
    requires NoFaultsFor(s, fg)
    ensures var s1 := EnsureSpec(st, s, fg).state;
            var s2 := EnsureSpec(st, s1, fg).state;
            var s3 := EnsureSpec(st, s2, fg).state;
            && Converged(st, s3, fg)
            && EnsureSpec(st, s3, fg).result == Ok(Done) && Quiet(s3, EnsureSpec(st, s3, fg).state)
  {
    var s1 := EnsureSpec(st, s, fg).state;
    var s2 := EnsureSpec(st, s1, fg).state;
    var s3 := EnsureSpec(st, s2, fg).state;
    EnsureProgress(st, s, fg);
    EnsureProgress(st, s1, fg);
    EnsureProgress(st, s2, fg);
    if Converged(st, s1, fg) {
      ConvergedEnsureIsQuiet(st, s1, fg);
    }
    if Converged(st, s2, fg) {
      ConvergedEnsureIsQuiet(st, s2, fg);
    }
    ConvergedEnsureIsQuiet(st, s3, fg);
  }

  // ---------------------------------------------------------------------------
  // The manager
  // ---------------------------------------------------------------------------

  class Manager {
    const client: StoreClient.Client
    const settings: PodSettings

    constructor (client: StoreClient.Client, settings: PodSettings)
      ensures this.client == client && this.settings == settings
    {
      this.client := client;
      this.settings := settings;
    }

    method Ensure(fg: Fgtech) returns (r: Result<ReconcileResult, Error>)
      modifies client
      ensures Step(client.State(), r) == EnsureSpec(settings, old(client.State()), fg)
    {
      var key := PodKey(fg);
      var existing := client.GetPod(key);
      if existing.Err? {
        if existing.error.NotFound? {
          var newPod := BuildPod(fg, settings).(owner := Some(fg.name));
          var created := client.CreatePod(key, newPod);
          if created.Err? {
            return Err(created.error);
          }
          return Ok(Done);
        }
        return Err(existing.error);
      }
      var drifted := PodNeedsUpdate(existing.value, fg, settings);
      if drifted {
        var deleted := client.DeletePod(key);
        if deleted.Err? {
          return Err(deleted.error);
        }
        return Ok(RequeueNow);
      }
      var svc := EnsureService(fg);
      if svc.Err? {
        return Err(svc.error);
      }
      return Ok(Done);
    }

    method EnsureService(fg: Fgtech) returns (r: Result<(), Error>)
      modifies client
      ensures Step(client.State(), r) == EnsureServiceSpec(settings, old(client.State()), fg)
    {
      var key := ServiceKey(fg);
      var svc := client.GetService(key);
      if svc.Err? {
        if svc.error.NotFound? {
          var newSvc := BuildService(fg, settings.defaultPort).(owner := Some(fg.name));
          r := client.CreateService(key, newSvc);
          return;
        }
        return Err(svc.error);
      }
      var drifted := ServiceNeedsUpdate(svc.value, fg, settings.defaultPort);
      if drifted {
        var updated := UpdateServiceFields(svc.value, fg, settings.defaultPort);
        r := client.UpdateService(key, updated);
        return;
      }
      return Ok(());
    }
  }
}
