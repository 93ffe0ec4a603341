/** controllers/fgtech_controller.go: the reconciler.

    Reconcile fetches the requested instance. When it is gone, only the
    namespace's ingress is re-synced. Otherwise the pod manager converges its
    pod and service; a requeue request is handed back without touching the
    ingress, and a settled instance ends with the ingress re-synced. The two
    managers are built on first use and kept. */
module Controller {
  import opened Wrappers
  import opened Api
  import opened Objects
  import opened StoreModel
  import Pods = PodManager
  import Ingresses = IngressManager
  import StoreClient

  /** The reconciler's settings, as its two managers receive them. */
  datatype ReconcilerSettings = ReconcilerSettings(pod: Pods.PodSettings, ingress: Ingresses.IngressSettings)

  /** A pod result that asks to be called again. */
  predicate AsksRequeue(res: ReconcileResult)
  {
    res.requeue || res.requeueAfter > 0
  }

  /** Reconcile for the request `req`. */
  function ReconcileSpec(cfg: ReconcilerSettings, s: StoreState, req: Key): Step<ReconcileResult>
  {
    var got := GetInstance(s, req);
    match got.result
    case Err(e) =>
      if e.NotFound? then Then(Ingresses.SyncSpec(cfg.ingress, got.state, req.namespace), Done)
      else Step(got.state, Err(e))
    case Ok(fg) => AfterEnsure(cfg, Pods.EnsureSpec(cfg.pod, got.state, fg), fg.namespace)
  }

  /** The rest of Reconcile once Ensure has run: its error or its requeue is
      handed back, otherwise the namespace is synced. */
  function AfterEnsure(cfg: ReconcilerSettings, ensured: Step<ReconcileResult>, ns: string): Step<ReconcileResult>
  {
    if ensured.result.Err? || AsksRequeue(ensured.result.value) then ensured
    else Then(Ingresses.SyncSpec(cfg.ingress, ensured.state, ns), Done)
  }

  // ---------------------------------------------------------------------------
  // Properties
  // ---------------------------------------------------------------------------

  /** Reconcile's dispatch: a failed fetch is returned with nothing written; a
      missing instance leads to a sync of the request's namespace and nothing
      else; a failed or requeueing Ensure is returned with the ingresses left
      alone; otherwise the instance's namespace is synced and Done returned. */
  lemma ReconcileDispatch(cfg: ReconcilerSettings, s: StoreState, req: Key)
    ensures var r := ReconcileSpec(cfg, s, req);
            var get := Get(Ref(FgtechKind, req));
            var found := FindInstance(s.instances, req);
            && Extends(s, r.state)
            && r.state.instances == s.instances
            && (get in s.faults ==> r.result == Err(Failed(get)) && SameObjects(s, r.state))
            && (get !in s.faults && found.None? ==>
                  r == Then(Ingresses.SyncSpec(cfg.ingress, Issue(s, get), req.namespace), Done))
            && (get !in s.faults && found.Some? ==>
                  var ensured := Pods.EnsureSpec(cfg.pod, Issue(s, get), found.value);
                  && (ensured.result.Err? ==> r == ensured && r.state.ingresses == s.ingresses)
                  && (ensured.result.Ok? && AsksRequeue(ensured.result.value) ==> r == ensured && r.state.ingresses == s.ingresses)
                  && (ensured.result.Ok? && !AsksRequeue(ensured.result.value) ==>
                        r == Then(Ingresses.SyncSpec(cfg.ingress, ensured.state, req.namespace), Done)))
  {
    var get := Get(Ref(FgtechKind, req));
    var got := GetInstance(s, req);
    var found := FindInstance(s.instances, req);
    if get !in s.faults {
      if found.None? {
        SyncedFrame(cfg, got.state, req.namespace);
      } else {
        FoundHasKey(s, req);
        FoundFrame(cfg, got.state, found.value);
      }
      ExtendsTransitive(s, got.state, ReconcileSpec(cfg, s, req).state);
    }
  }

  /** What a sync of `ns` from `t` keeps: the instances, the fault set and
      the log so far. */
  lemma SyncedFrame(cfg: ReconcilerSettings, t: StoreState, ns: string)
    ensures var u := Ingresses.SyncSpec(cfg.ingress, t, ns).state;
            Extends(t, u) && u.instances == t.instances
  {
    Ingresses.SyncErrors(cfg.ingress, t, ns);
    Ingresses.SyncFrame(cfg.ingress, t, ns);
  }

  /** What Reconcile keeps once the instance is found. */
  lemma FoundFrame(cfg: ReconcilerSettings, t: StoreState, fg: Fgtech)
    ensures var ensured := Pods.EnsureSpec(cfg.pod, t, fg);
            var r := AfterEnsure(cfg, ensured, fg.namespace);
            && Extends(t, r.state) && r.state.instances == t.instances
            && (ensured.result.Err? || AsksRequeue(ensured.result.value) ==> r.state.ingresses == t.ingresses)
  {
    var ensured := Pods.EnsureSpec(cfg.pod, t, fg);
    Pods.EnsureCases(cfg.pod, t, fg);
    if !(ensured.result.Err? || AsksRequeue(ensured.result.value)) {
      SyncedFrame(cfg, ensured.state, fg.namespace);
      ExtendsTransitive(t, ensured.state, AfterEnsure(cfg, ensured, fg.namespace).state);
    }
  }

  /** Reconcile's only result other than Done is the requeue Ensure asks for
      after deleting a drifted pod; it fails with a faulted call, the last one
      it issued, or, when no ingress host is configured, because of that. */
  lemma ReconcileResults(cfg: ReconcilerSettings, s: StoreState, req: Key)
    ensures var r := ReconcileSpec(cfg, s, req);
            && (cfg.ingress.host != "" ==> ErrorsAreFaults(s, r))
            && (cfg.ingress.host == "" ==> ErrorsAreFaults(s, r) || r.result == Err(Invalid(Ingresses.HostMissing)))
            && (r.result.Ok? ==> r.result.value == Done || r.result.value == Pods.RequeueNow)
  {
    var got := GetInstance(s, req);
    if got.result.Ok? {
      FoundResults(cfg, got.state, got.result.value);
    } else if got.result.error.NotFound? {
      SyncedResults(cfg, got.state, req.namespace);
    }
  }

  lemma SyncedResults(cfg: ReconcilerSettings, t: StoreState, ns: string)
    ensures var r := Then(Ingresses.SyncSpec(cfg.ingress, t, ns), Done);
            && (cfg.ingress.host != "" ==> ErrorsAreFaults(t, r))
            && (cfg.ingress.host == "" ==> r.result == Err(Invalid(Ingresses.HostMissing)))
            && (r.result.Ok? ==> r.result.value == Done)
  {
    var synced := Ingresses.SyncSpec(cfg.ingress, t, ns);
    Ingresses.SyncErrors(cfg.ingress, t, ns);
    ThenKeepsErrors(t, synced, Done);
  }

  lemma FoundResults(cfg: ReconcilerSettings, t: StoreState, fg: Fgtech)
    ensures var r := AfterEnsure(cfg, Pods.EnsureSpec(cfg.pod, t, fg), fg.namespace);
            && (cfg.ingress.host != "" ==> ErrorsAreFaults(t, r))
            && (cfg.ingress.host == "" ==> ErrorsAreFaults(t, r) || r.result == Err(Invalid(Ingresses.HostMissing)))
            && (r.result.Ok? ==> r.result.value == Done || r.result.value == Pods.RequeueNow)
  {
    var ensured := Pods.EnsureSpec(cfg.pod, t, fg);
    Pods.EnsureOutcomes(cfg.pod, t, fg);
    if !(ensured.result.Err? || AsksRequeue(ensured.result.value)) {
      SyncedResults(cfg, ensured.state, fg.namespace);
    }
  }

  /** The instance found for a request has the requested key. */
  lemma FoundHasKey(s: StoreState, req: Key)
    requires FindInstance(s.instances, req).Some?
    ensures FindInstance(s.instances, req).value.namespace == req.namespace
  {
  }

  /** One fault-free Reconcile of a present instance makes the same progress
      as Ensure: a missing pod is created, a drifted one removed with a
      requeue, a settled one leaves a converged pod and service; the sync
      that may follow never touches them. */
  lemma ReconcileProgress(cfg: ReconcilerSettings, s: StoreState, req: Key, fg: Fgtech)
    requires Get(Ref(FgtechKind, req)) !in s.faults && FindInstance(s.instances, req) == Some(fg)
    requires Pods.NoFaultsFor(s, fg)
    ensures var t := ReconcileSpec(cfg, s, req);
            var k := Pods.PodKey(fg);
            && t.state.faults == s.faults && t.state.instances == s.instances
            && (t.result.Ok? ==> t.result.value == Done || t.result.value == Pods.RequeueNow)
            && (k !in s.pods ==> k in t.state.pods && !Pods.PodDrifted(t.state.pods[k], fg, cfg.pod) && t.result != Ok(Pods.RequeueNow))
            && (k in s.pods && Pods.PodDrifted(s.pods[k], fg, cfg.pod) ==> k !in t.state.pods && t.result == Ok(Pods.RequeueNow))
            && (k in s.pods && !Pods.PodDrifted(s.pods[k], fg, cfg.pod) ==> Pods.Converged(cfg.pod, t.state, fg) && t.result != Ok(Pods.RequeueNow))
  {
    var got := GetInstance(s, req);
    assert ReconcileSpec(cfg, s, req) == AfterEnsure(cfg, Pods.EnsureSpec(cfg.pod, got.state, fg), fg.namespace);
    FoundProgress(cfg, got.state, fg);
  }

  /** A sync never touches an instance's pod or service, nor the instances. */
  lemma SyncKeepsInstanceObjects(cfg: ReconcilerSettings, t: StoreState, ns: string, fg: Fgtech)
    ensures var u := Ingresses.SyncSpec(cfg.ingress, t, ns).state;
            && u.faults == t.faults && u.instances == t.instances
            && (Pods.PodKey(fg) in u.pods <==> Pods.PodKey(fg) in t.pods)
            && (Pods.PodKey(fg) in t.pods ==> u.pods[Pods.PodKey(fg)] == t.pods[Pods.PodKey(fg)])
            && (Pods.ServiceKey(fg) in u.services <==> Pods.ServiceKey(fg) in t.services)
            && (Pods.ServiceKey(fg) in t.services ==> u.services[Pods.ServiceKey(fg)] == t.services[Pods.ServiceKey(fg)])
  {
    Ingresses.SyncFrame(cfg.ingress, t, ns);
    Ingresses.SyncErrors(cfg.ingress, t, ns);
    Ingresses.BackendNameIsNoDerivedName(fg);
  }

  lemma FoundProgress(cfg: ReconcilerSettings, t: StoreState, fg: Fgtech)
    requires Pods.NoFaultsFor(t, fg)
    ensures var r := AfterEnsure(cfg, Pods.EnsureSpec(cfg.pod, t, fg), fg.namespace);
            var k := Pods.PodKey(fg);
            && r.state.faults == t.faults && r.state.instances == t.instances
            && (r.result.Ok? ==> r.result.value == Done || r.result.value == Pods.RequeueNow)
            && (k !in t.pods ==> k in r.state.pods && !Pods.PodDrifted(r.state.pods[k], fg, cfg.pod) && r.result != Ok(Pods.RequeueNow))
            && (k in t.pods && Pods.PodDrifted(t.pods[k], fg, cfg.pod) ==> k !in r.state.pods && r.result == Ok(Pods.RequeueNow))
            && (k in t.pods && !Pods.PodDrifted(t.pods[k], fg, cfg.pod) ==> Pods.Converged(cfg.pod, r.state, fg) && r.result != Ok(Pods.RequeueNow))
  {
    var ensured := Pods.EnsureSpec(cfg.pod, t, fg);
    Pods.EnsureProgress(cfg.pod, t, fg);
    Pods.EnsureCases(cfg.pod, t, fg);
    if !AsksRequeue(ensured.result.value) {
      SyncKeepsInstanceObjects(cfg, ensured.state, fg.namespace, fg);
    }
  }

  /** A Reconcile of a converged, fault-free instance keeps it converged. */
  lemma ConvergedReconcileStays(cfg: ReconcilerSettings, s: StoreState, req: Key, fg: Fgtech)
    requires Get(Ref(FgtechKind, req)) !in s.faults && FindInstance(s.instances, req) == Some(fg)
    requires Pods.NoFaultsFor(s, fg) && Pods.Converged(cfg.pod, s, fg)
    ensures var t := ReconcileSpec(cfg, s, req).state;
            && Pods.PodKey(fg) in t.pods && t.pods[Pods.PodKey(fg)] == s.pods[Pods.PodKey(fg)]
            && Pods.ServiceKey(fg) in t.services && t.services[Pods.ServiceKey(fg)] == s.services[Pods.ServiceKey(fg)]
  {
    var got := GetInstance(s, req);
    Pods.ConvergedEnsureIsQuiet(cfg.pod, got.state, fg);
    var ensured := Pods.EnsureSpec(cfg.pod, got.state, fg);
    assert ReconcileSpec(cfg, s, req) == Then(Ingresses.SyncSpec(cfg.ingress, ensured.state, fg.namespace), Done);
    SyncKeepsInstanceObjects(cfg, ensured.state, fg.namespace, fg);
  }

  /** Without faults, three Reconciles of a present instance converge its pod
      and service, and later ones keep them as they are. */
  lemma ReconcileConverges(cfg: ReconcilerSettings, s: StoreState, req: Key, fg: Fgtech)
    requires Get(Ref(FgtechKind, req)) !in s.faults && FindInstance(s.instances, req) == Some(fg)
    requires Pods.NoFaultsFor(s, fg)
    ensures var s1 := ReconcileSpec(cfg, s, req).state;
            var s2 := ReconcileSpec(cfg, s1, req).state;
            var s3 := ReconcileSpec(cfg, s2, req).state;
            var s4 := ReconcileSpec(cfg, s3, req).state;
            && Pods.Converged(cfg.pod, s3, fg)
            && Pods.PodKey(fg) in s4.pods && s4.pods[Pods.PodKey(fg)] == s3.pods[Pods.PodKey(fg)]
            && Pods.ServiceKey(fg) in s4.services && s4.services[Pods.ServiceKey(fg)] == s3.services[Pods.ServiceKey(fg)]
  {
    var s1 := ReconcileSpec(cfg, s, req).state;
    var s2 := ReconcileSpec(cfg, s1, req).state;
    var s3 := ReconcileSpec(cfg, s2, req).state;
    ReconcileProgress(cfg, s, req, fg);
    ReconcileProgress(cfg, s1, req, fg);
    ReconcileProgress(cfg, s2, req, fg);
    if Pods.Converged(cfg.pod, s1, fg) {
      ConvergedReconcileStays(cfg, s1, req, fg);
    }
    if Pods.Converged(cfg.pod, s2, fg) {
      ConvergedReconcileStays(cfg, s2, req, fg);
    }
    ConvergedReconcileStays(cfg, s3, req, fg);
  }

  // ---------------------------------------------------------------------------
  // The reconciler
  // ---------------------------------------------------------------------------

  /** FgtechReconciler: the store, its settings, and the two managers it
      builds lazily. */
  class Reconciler {
    const client: StoreClient.Client
    const settings: ReconcilerSettings
    var podMgr: Pods.Manager?
    var ingressMgr: Ingresses.Manager?

    /** A built manager works on this reconciler's store with its settings. */
    predicate Valid()
      reads this
    {
      && (podMgr != null ==> podMgr.client == client && podMgr.settings == settings.pod)
      && (ingressMgr != null ==> ingressMgr.client == client && ingressMgr.settings == settings.ingress)
    }

    constructor (client: StoreClient.Client, settings: ReconcilerSettings)
      ensures Valid() && this.client == client && this.settings == settings
      ensures podMgr == null && ingressMgr == null
    {
      this.client := client;
      this.settings := settings;
      podMgr := null;
      ingressMgr := null;
    }

    /** podManager: the cached manager, built on the first call. */
    method PodManager() returns (m: Pods.Manager)
      requires Valid()
      modifies this
      ensures Valid() && podMgr == m && ingressMgr == old(ingressMgr)
      ensures m.client == client && m.settings == settings.pod
      ensures old(podMgr) != null ==> m == old(podMgr)
      ensures old(podMgr) == null ==> fresh(m)
    {
      if podMgr == null {
        podMgr := new Pods.Manager(client, settings.pod);
      }
      m := podMgr;
    }

    /** ingressManager: the cached manager, built on the first call. */
    method IngressManager() returns (m: Ingresses.Manager)
      requires Valid()
      modifies this
      ensures Valid() && ingressMgr == m && podMgr == old(podMgr)
      ensures m.client == client && m.settings == settings.ingress
      ensures old(ingressMgr) != null ==> m == old(ingressMgr)
      ensures old(ingressMgr) == null ==> fresh(m)
    {
      if ingressMgr == null {
        ingressMgr := new Ingresses.Manager(client, settings.ingress);
      }
      m := ingressMgr;
    }

    method Reconcile(req: Key) returns (r: Result<ReconcileResult, Error>)
      requires Valid()
      modifies this, client
      ensures Valid()
      ensures Step(client.State(), r) == ReconcileSpec(settings, old(client.State()), req)
    {
      var got := client.GetInstance(req);
      if got.Err? {
        if got.error.NotFound? {
          var ingress := IngressManager();
          var synced := ingress.SyncNamespace(req.namespace);
          if synced.Err? {
            return Err(synced.error);
          }
          return Ok(Done);
        }
        return Err(got.error);
      }
      var fg := got.value;
      var pods := PodManager();
      var podResult := pods.Ensure(fg);
      if podResult.Err? {
        return podResult;
      }
      if AsksRequeue(podResult.value) {
        return podResult;
      }
      var ingress := IngressManager();
      var synced := ingress.SyncNamespace(fg.namespace);
      if synced.Err? {
        return Err(synced.error);
      }
      return Ok(Done);
    }
  }
}
