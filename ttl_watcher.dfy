/** controllers/ttl_watcher.go: the periodic expiry sweep.

    A sweep lists every instance, cleans up each expired one (pod, then
    service, then the instance itself, a missing object counting as deleted),
    remembers the namespaces of the instances it cleaned up, and re-syncs the
    ingress of each such namespace, in whatever order the set yields them.
    Time is whole seconds; the ticker that calls the sweep is not modelled. */
module TtlWatcher {
  import opened Wrappers
  import opened Api
  import opened Objects
  import opened StoreModel
  import PodManager
  import IngressManager
  import StoreClient

  /** An instance expires `ttl` seconds after its creation, when its resolved
      TTL is positive; the sweep cleans it from that second on. */
  predicate Expired(item: Fgtech, defaultTTLSeconds: Int64, now: int)
  {
    var ttl := PodManager.ResolveTTLSeconds(item, defaultTTLSeconds);
    ttl > 0 && now >= item.creationTimestamp + ttl
  }

  /** A delete whose NotFound counts as success. */
  function IgnoreNotFound(step: Step<()>): (r: Step<()>)
    ensures r.state == step.state
    ensures r.result.Ok? <==> step.result.Ok? || step.result.error.NotFound?
    ensures r.result.Err? ==> r.result == step.result
  {
    if step.result.Err? && step.result.error.NotFound? then Step(step.state, Ok(())) else step
  }

  /** cleanup: pod, then service, then the instance; the first failure stops it. */
  function CleanupSpec(s: StoreState, fg: Fgtech): Step<()>
  {
    var p := IgnoreNotFound(DeletePod(s, PodManager.PodKey(fg)));
    if p.result.Err? then p
    else
      var v := IgnoreNotFound(DeleteService(p.state, PodManager.ServiceKey(fg)));
      if v.result.Err? then v
      else IgnoreNotFound(DeleteInstance(v.state, KeyOf(fg)))
  }

  /** One of the three deletes of `fg`'s cleanup is a faulted call. */
  predicate CleanupFaulted(faults: set<Call>, fg: Fgtech)
  {
    || Delete(Ref(PodKind, PodManager.PodKey(fg))) in faults
    || Delete(Ref(ServiceKind, PodManager.ServiceKey(fg))) in faults
    || Delete(Ref(FgtechKind, KeyOf(fg))) in faults
  }

  /** The state after the first loop of sweep, and the namespaces it recorded. */
  datatype Swept = Swept(state: StoreState, namespaces: set<string>)

  /** The first loop of sweep over the listed items, in list order. */
  function SweepItems(s: StoreState, items: seq<Fgtech>, defaultTTLSeconds: Int64, now: int): Swept
    decreases |items|
  {
    if items == [] then Swept(s, {})
    else
      var before := SweepItems(s, items[..|items| - 1], defaultTTLSeconds, now);
      var item := items[|items| - 1];
      if !Expired(item, defaultTTLSeconds, now) then before
      else
        var c := CleanupSpec(before.state, item);
        Swept(c.state, if c.result.Ok? then before.namespaces + {item.namespace} else before.namespaces)
  }

  /** The second loop of sweep: SyncNamespace for each namespace of `order`
      in turn, its errors only logged. */
  function SyncAll(cfg: IngressManager.IngressSettings, s: StoreState, order: seq<string>): StoreState
    decreases |order|
  {
    if order == [] then s
    else IngressManager.SyncSpec(cfg, SyncAll(cfg, s, order[..|order| - 1]), order[|order| - 1]).state
  }

  /** The settings a watcher is built with. */
  datatype WatcherSettings = WatcherSettings(defaultTTLSeconds: Int64, ingress: IngressManager.IngressSettings)

  /** `order` lists each namespace the first loop of a sweep from `s` recorded, once. */
  predicate SweepOrder(w: WatcherSettings, s: StoreState, now: int, order: seq<string>)
  {
    var listed := ListInstances(s, None);
    if listed.result.Err? then order == []
    else multiset(order) == multiset(SweepItems(listed.state, listed.result.value, w.defaultTTLSeconds, now).namespaces)
  }

  /** sweep, with the namespaces synced in the order `order`. */
  function SweepSpec(w: WatcherSettings, s: StoreState, now: int, order: seq<string>): Step<()>
  {
    var listed := ListInstances(s, None);
    if listed.result.Err? then Step(listed.state, Err(listed.result.error))
    else
      var swept := SweepItems(listed.state, listed.result.value, w.defaultTTLSeconds, now);
      Step(SyncAll(w.ingress, swept.state, order), Ok(()))
  }

  // ---------------------------------------------------------------------------
  // Properties
  // ---------------------------------------------------------------------------

  /** The two cases of the repository's tests: created two hours ago with the
      one-hour default, expired; created ten minutes ago with a two-hour TTL
      of its own, not expired. */
  lemma ExpiryExamples(now: int, base: Fgtech)
    ensures Expired(base.(creationTimestamp := now - 7200, spec := base.spec.(ttlSeconds := None)), 3600, now)
    ensures !Expired(base.(creationTimestamp := now - 600, spec := base.spec.(ttlSeconds := Some(7200))), 3600, now)
  {
  }

  /** An instance whose TTL resolves to zero is never expired. */
  lemma ZeroTTLNeverExpires(item: Fgtech, defaultTTLSeconds: Int64, now: int)
    requires PodManager.ResolveTTLSeconds(item, defaultTTLSeconds) == 0
    ensures !Expired(item, defaultTTLSeconds, now)
  {
  }

  /** cleanup fails exactly when one of its three deletes is faulted, with
      that call's error; on success the pod, the service and the instance
      are gone. */
  lemma CleanupOutcome(s: StoreState, fg: Fgtech)
    ensures var c := CleanupSpec(s, fg);
            && Extends(s, c.state) && ErrorsAreFaults(s, c)
            && (c.result.Err? <==> CleanupFaulted(s.faults, fg))
            && (c.result.Ok? ==>
                  && PodManager.PodKey(fg) !in c.state.pods && PodManager.ServiceKey(fg) !in c.state.services
                  && FindInstance(c.state.instances, KeyOf(fg)).None?)
  {
    var ps := IgnoreNotFound(DeletePod(s, PodManager.PodKey(fg)));
    if ps.result.Ok? {
      var vs := IgnoreNotFound(DeleteService(ps.state, PodManager.ServiceKey(fg)));
      ExtendsTransitive(s, ps.state, vs.state);
      if vs.result.Ok? {
        var d := DeleteInstance(vs.state, KeyOf(fg));
        ExtendsTransitive(s, vs.state, d.state);
        assert d.state.pods == ps.state.pods;
      }
    }
  }

  /** The three deletes of `fg`'s cleanup, in the order cleanup issues them. */
  function CleanupCalls(fg: Fgtech): (calls: seq<Call>)
    ensures |calls| == 3 && forall i :: 0 <= i < 3 ==> calls[i].Delete?
  {
    [Delete(Ref(PodKind, PodManager.PodKey(fg))), Delete(Ref(ServiceKind, PodManager.ServiceKey(fg))), Delete(Ref(FgtechKind, KeyOf(fg)))]
  }

  /** How many of the three deletes cleanup issues: all of them up to and
      including the first faulted one. */
  function CleanupIssued(faults: set<Call>, fg: Fgtech): (n: nat)
    ensures 1 <= n <= 3
    ensures forall i :: 0 <= i < n - 1 ==> CleanupCalls(fg)[i] !in faults
    ensures n < 3 ==> CleanupCalls(fg)[n - 1] in faults
    ensures n == 3 <==> CleanupCalls(fg)[0] !in faults && CleanupCalls(fg)[1] !in faults
  {
    var calls := CleanupCalls(fg);
    if calls[0] in faults then 1 else if calls[1] in faults then 2 else 3
  }

  /** cleanup deletes the pod, then the service, then the instance, and
      stops at the first faulted delete: a faulted pod delete changes no
      object, and while any of the three is faulted the instance stays
      listed. */
  lemma CleanupOrder(s: StoreState, fg: Fgtech)
    ensures var c := CleanupSpec(s, fg);
            && Extends(s, c.state)
            && NewCalls(s, c.state) == CleanupCalls(fg)[..CleanupIssued(s.faults, fg)]
            && (CleanupCalls(fg)[0] in s.faults ==> SameObjects(s, c.state))
            && (CleanupCalls(fg)[0] !in s.faults && CleanupCalls(fg)[1] in s.faults ==> c.state.services == s.services)
            && (CleanupFaulted(s.faults, fg) ==> c.state.instances == s.instances)
  {
    var calls := CleanupCalls(fg);
    var ps := IgnoreNotFound(DeletePod(s, PodManager.PodKey(fg)));
    assert ps.state.log == s.log + calls[..1];
    if ps.result.Ok? {
      var vs := IgnoreNotFound(DeleteService(ps.state, PodManager.ServiceKey(fg)));
      assert vs.state.log == s.log + calls[..2];
      if vs.result.Ok? {
        var d := DeleteInstance(vs.state, KeyOf(fg));
        assert d.state.log == s.log + calls;
      }
    }
  }

  /** cleanup only deletes, and only the pod, the service and the instance of
      `fg`: every other object and every other instance stays. */
  lemma CleanupFrame(s: StoreState, fg: Fgtech)
    ensures var c := CleanupSpec(s, fg).state;
            && c.ingresses == s.ingresses
            && c.pods.Keys <= s.pods.Keys && c.services.Keys <= s.services.Keys
            && (forall k :: k in c.pods ==> c.pods[k] == s.pods[k])
            && (forall k :: k in c.services ==> c.services[k] == s.services[k])
            && s.pods - {PodManager.PodKey(fg)} == c.pods - {PodManager.PodKey(fg)}
            && s.services - {PodManager.ServiceKey(fg)} == c.services - {PodManager.ServiceKey(fg)}
            && (forall x :: x in c.instances ==> x in s.instances)
            && (forall x :: x in s.instances && KeyOf(x) != KeyOf(fg) ==> x in c.instances)
  {
    var ps := IgnoreNotFound(DeletePod(s, PodManager.PodKey(fg)));
    if ps.result.Ok? {
      var vs := IgnoreNotFound(DeleteService(ps.state, PodManager.ServiceKey(fg)));
      if vs.result.Ok? {
        var d := DeleteInstance(vs.state, KeyOf(fg));
        assert d.state.pods == ps.state.pods;
      }
    }
  }

  /** The namespaces the first loop records: those of the expired items whose
      cleanup is not faulted. */
  function CleanedNamespaces(faults: set<Call>, items: seq<Fgtech>, defaultTTLSeconds: Int64, now: int): set<string>
  {
    set i | 0 <= i < |items| && Expired(items[i], defaultTTLSeconds, now) && !CleanupFaulted(faults, items[i]) :: items[i].namespace
  }

  /** The first loop of sweep only deletes: it never adds or changes an
      object or an instance, and keeps the fault set and the log so far. */
  lemma {:induction false} SweepItemsFrame(s: StoreState, items: seq<Fgtech>, defaultTTLSeconds: Int64, now: int)
    ensures var w := SweepItems(s, items, defaultTTLSeconds, now).state;
            && Extends(s, w)
            && w.ingresses == s.ingresses
            && w.pods.Keys <= s.pods.Keys && w.services.Keys <= s.services.Keys
            && (forall k :: k in w.pods ==> w.pods[k] == s.pods[k])
            && (forall k :: k in w.services ==> w.services[k] == s.services[k])
            && (forall x :: x in w.instances ==> x in s.instances)
    decreases |items|
  {
    if items != [] {
      var n := |items| - 1;
      var before := SweepItems(s, items[..n], defaultTTLSeconds, now).state;
      SweepItemsFrame(s, items[..n], defaultTTLSeconds, now);
      if Expired(items[n], defaultTTLSeconds, now) {
        CleanupOutcome(before, items[n]);
        CleanupFrame(before, items[n]);
        ExtendsTransitive(s, before, CleanupSpec(before, items[n]).state);
      }
    }
  }

  /** The namespaces the first loop records are exactly those of the expired
      items whose cleanup is not faulted. */
  lemma {:induction false} SweepItemsNamespaces(s: StoreState, items: seq<Fgtech>, defaultTTLSeconds: Int64, now: int)
    ensures SweepItems(s, items, defaultTTLSeconds, now).namespaces == CleanedNamespaces(s.faults, items, defaultTTLSeconds, now)
    decreases |items|
  {
    if items != [] {
      var n := |items| - 1;
      var before := SweepItems(s, items[..n], defaultTTLSeconds, now).state;
      SweepItemsNamespaces(s, items[..n], defaultTTLSeconds, now);
      SweepItemsFrame(s, items[..n], defaultTTLSeconds, now);
      if Expired(items[n], defaultTTLSeconds, now) {
        CleanupOutcome(before, items[n]);
      }
      CleanedNamespacesStep(s.faults, items, defaultTTLSeconds, now);
    }
  }

  /** Nothing of `fg` is left in `st`: no pod, no service, no instance. */
  predicate Gone(st: StoreState, fg: Fgtech)
  {
    && PodManager.PodKey(fg) !in st.pods && PodManager.ServiceKey(fg) !in st.services
    && FindInstance(st.instances, KeyOf(fg)).None?
  }

  /** A state that only lost objects and instances keeps every `Gone`. */
  lemma GoneStaysGone(a: StoreState, b: StoreState, fg: Fgtech)
    requires Gone(a, fg)
    requires b.pods.Keys <= a.pods.Keys && b.services.Keys <= a.services.Keys
    requires forall x :: x in b.instances ==> x in a.instances
    ensures Gone(b, fg)
  {
    NoneStaysNone(a.instances, b.instances, KeyOf(fg));
  }

  /** After the first loop, every expired item whose cleanup is not faulted
      has no pod, no service and no instance left. */
  lemma {:induction false} SweepItemsRemoves(s: StoreState, items: seq<Fgtech>, defaultTTLSeconds: Int64, now: int)
    ensures var w := SweepItems(s, items, defaultTTLSeconds, now).state;
            forall i :: 0 <= i < |items| && Expired(items[i], defaultTTLSeconds, now) && !CleanupFaulted(s.faults, items[i]) ==>
              Gone(w, items[i])
    decreases |items|
  {
    if items != [] {
      var n := |items| - 1;
      var prefix := items[..n];
      var before := SweepItems(s, prefix, defaultTTLSeconds, now).state;
      var w := SweepItems(s, items, defaultTTLSeconds, now).state;
      SweepItemsRemoves(s, prefix, defaultTTLSeconds, now);
      SweepItemsFrame(s, prefix, defaultTTLSeconds, now);
      if Expired(items[n], defaultTTLSeconds, now) {
        CleanupOutcome(before, items[n]);
        CleanupFrame(before, items[n]);
        forall i | 0 <= i < n && Expired(items[i], defaultTTLSeconds, now) && !CleanupFaulted(s.faults, items[i])
          ensures Gone(w, items[i])
        {
          assert items[i] == prefix[i];
          GoneStaysGone(before, w, items[i]);
        }
      } else {
        forall i | 0 <= i < n ensures items[i] == prefix[i] { }
      }
    }
  }

  lemma NoneStaysNone(xs: seq<Fgtech>, ys: seq<Fgtech>, k: Key)
    requires FindInstance(xs, k).None?
    requires forall x :: x in ys ==> x in xs
    ensures FindInstance(ys, k).None?
  {
  }

  lemma CleanedNamespacesStep(faults: set<Call>, items: seq<Fgtech>, defaultTTLSeconds: Int64, now: int)
    requires items != []
    ensures var n := |items| - 1;
            var item := items[n];
            CleanedNamespaces(faults, items, defaultTTLSeconds, now)
              == CleanedNamespaces(faults, items[..n], defaultTTLSeconds, now)
                 + (if Expired(item, defaultTTLSeconds, now) && !CleanupFaulted(faults, item) then {item.namespace} else {})
  {
    var n := |items| - 1;
    assert forall i :: 0 <= i < n ==> items[..n][i] == items[i];
  }

  /** The first loop of sweep leaves every object of an unexpired item as it
      was, provided no expired item of the listing shares its key. */
  lemma {:induction false} SweepItemsKeeps(s: StoreState, items: seq<Fgtech>, defaultTTLSeconds: Int64, now: int, x: Fgtech)
    requires forall j :: 0 <= j < |items| && Expired(items[j], defaultTTLSeconds, now) ==> KeyOf(items[j]) != KeyOf(x)
    ensures var t := SweepItems(s, items, defaultTTLSeconds, now).state;
            && (PodManager.PodKey(x) in s.pods ==> PodManager.PodKey(x) in t.pods && t.pods[PodManager.PodKey(x)] == s.pods[PodManager.PodKey(x)])
            && (PodManager.ServiceKey(x) in s.services ==> PodManager.ServiceKey(x) in t.services && t.services[PodManager.ServiceKey(x)] == s.services[PodManager.ServiceKey(x)])
            && (x in s.instances ==> x in t.instances)
    decreases |items|
  {
    if items != [] {
      var n := |items| - 1;
      var before := SweepItems(s, items[..n], defaultTTLSeconds, now);
      assert forall j :: 0 <= j < n ==> items[..n][j] == items[j];
      SweepItemsKeeps(s, items[..n], defaultTTLSeconds, now, x);
      var item := items[n];
      if Expired(item, defaultTTLSeconds, now) {
        CleanupFrame(before.state, item);
        PodManager.DerivedNamesInjective(item, x);
        var t := CleanupSpec(before.state, item).state;
        assert PodManager.PodKey(x) in s.pods ==> PodManager.PodKey(x) in (before.state.pods - {PodManager.PodKey(item)});
        assert PodManager.ServiceKey(x) in s.services ==> PodManager.ServiceKey(x) in (before.state.services - {PodManager.ServiceKey(item)});
      }
    }
  }

  /** The second loop of sweep changes no instance, and creates or keeps
      only the default-backend pods and services. */
  lemma {:induction false} SyncAllFrame(cfg: IngressManager.IngressSettings, s: StoreState, order: seq<string>)
    ensures var t := SyncAll(cfg, s, order);
            && Extends(s, t)
            && t.instances == s.instances
            && (forall k: Key :: k.name != IngressManager.BackendName ==> (k in t.pods <==> k in s.pods))
            && (forall k :: k in s.pods ==> k in t.pods && t.pods[k] == s.pods[k])
            && (forall k: Key :: k.name != IngressManager.BackendName ==> (k in t.services <==> k in s.services))
            && (forall k :: k in s.services ==> k in t.services && t.services[k] == s.services[k])
    decreases |order|
  {
    if order != [] {
      var n := |order| - 1;
      var mid := SyncAll(cfg, s, order[..n]);
      SyncAllFrame(cfg, s, order[..n]);
      IngressManager.SyncFrame(cfg, mid, order[n]);
      IngressManager.SyncErrors(cfg, mid, order[n]);
      ExtendsTransitive(s, mid, SyncAll(cfg, s, order));
    }
  }

  /** sweep fails exactly when listing the instances fails, and then it has
      changed nothing; every other failure is only logged. */
  lemma SweepErrors(w: WatcherSettings, s: StoreState, now: int, order: seq<string>)
    ensures var r := SweepSpec(w, s, now, order);
            && (r.result.Err? <==> List(None) in s.faults)
            && (r.result.Err? ==> r.result == Err(Failed(List(None))) && SameObjects(s, r.state))
  {
  }

  /** After a sweep, every expired instance whose cleanup was not faulted has
      no pod, no service and no instance left, however the namespaces were
      ordered; the instances that remain are among those that were there. */
  lemma SweepRemovesExpired(w: WatcherSettings, s: StoreState, now: int, order: seq<string>, x: Fgtech)
    requires x in s.instances && Expired(x, w.defaultTTLSeconds, now) && !CleanupFaulted(s.faults, x)
    requires List(None) !in s.faults
    ensures var t := SweepSpec(w, s, now, order).state;
            && Gone(t, x)
            && (forall y :: y in t.instances ==> y in s.instances)
  {
    var listed := ListInstances(s, None);
    var items := listed.result.value;
    var j :| 0 <= j < |items| && items[j] == x;
    SweepItemsFrame(listed.state, items, w.defaultTTLSeconds, now);
    SweepItemsRemoves(listed.state, items, w.defaultTTLSeconds, now);
    var mid := SweepItems(listed.state, items, w.defaultTTLSeconds, now).state;
    SyncAllFrame(w.ingress, mid, order);
    IngressManager.BackendNameIsNoDerivedName(x);
  }

  /** A sweep leaves the pod, the service and the instance of an unexpired
      instance as they were, when no expired instance shares its key. */
  lemma SweepKeepsUnexpired(w: WatcherSettings, s: StoreState, now: int, order: seq<string>, x: Fgtech)
    requires forall y :: y in s.instances && Expired(y, w.defaultTTLSeconds, now) ==> KeyOf(y) != KeyOf(x)
    ensures var t := SweepSpec(w, s, now, order).state;
            && (PodManager.PodKey(x) in s.pods ==> PodManager.PodKey(x) in t.pods && t.pods[PodManager.PodKey(x)] == s.pods[PodManager.PodKey(x)])
            && (PodManager.ServiceKey(x) in s.services ==> PodManager.ServiceKey(x) in t.services && t.services[PodManager.ServiceKey(x)] == s.services[PodManager.ServiceKey(x)])
            && (x in s.instances ==> x in t.instances)
  {
    var listed := ListInstances(s, None);
    if listed.result.Ok? {
      var items := listed.result.value;
      assert forall j :: 0 <= j < |items| ==> items[j] in s.instances;
      SweepItemsKeeps(listed.state, items, w.defaultTTLSeconds, now, x);
      var mid := SweepItems(listed.state, items, w.defaultTTLSeconds, now).state;
      SyncAllFrame(w.ingress, mid, order);
    }
  }

  /** The namespaces a sweep re-syncs are exactly those of the expired
      instances whose cleanup was not faulted. */
  lemma SweepSyncsCleanedNamespaces(w: WatcherSettings, s: StoreState, now: int, order: seq<string>)
    requires List(None) !in s.faults
    requires SweepOrder(w, s, now, order)
    ensures forall n :: n in order <==> exists y :: y in s.instances && Expired(y, w.defaultTTLSeconds, now) && !CleanupFaulted(s.faults, y) && y.namespace == n
  {
    var listed := ListInstances(s, None);
    var items := listed.result.value;
    SweepItemsNamespaces(listed.state, items, w.defaultTTLSeconds, now);
    CleanedNamespacesOf(s.faults, items, w.defaultTTLSeconds, now);
    var nss := SweepItems(listed.state, items, w.defaultTTLSeconds, now).namespaces;
    forall n ensures n in order <==> n in nss {
      assert n in order <==> n in multiset(order);
    }
  }

  /** The members of CleanedNamespaces, as namespaces of listed items. */
  lemma CleanedNamespacesOf(faults: set<Call>, items: seq<Fgtech>, defaultTTLSeconds: Int64, now: int)
    ensures forall n :: n in CleanedNamespaces(faults, items, defaultTTLSeconds, now) <==>
              exists y :: y in items && Expired(y, defaultTTLSeconds, now) && !CleanupFaulted(faults, y) && y.namespace == n
  {
    forall n | exists y :: y in items && Expired(y, defaultTTLSeconds, now) && !CleanupFaulted(faults, y) && y.namespace == n
      ensures n in CleanedNamespaces(faults, items, defaultTTLSeconds, now)
    {
      var y :| y in items && Expired(y, defaultTTLSeconds, now) && !CleanupFaulted(faults, y) && y.namespace == n;
      var i :| 0 <= i < |items| && items[i] == y;
    }
  }

  // ---------------------------------------------------------------------------
  // The watcher
  // ---------------------------------------------------------------------------

  /** The ttlWatcher: the store, the default TTL and the ingress settings it
      hands to the ingress manager it builds for a sweep. */
  class Watcher {
    const client: StoreClient.Client
    const settings: WatcherSettings

    constructor (client: StoreClient.Client, settings: WatcherSettings)
      ensures this.client == client && this.settings == settings
    {
      this.client := client;
      this.settings := settings;
    }

    /** deleteIgnoreNotFound on the pod, the service and the instance. */
    method Cleanup(fg: Fgtech) returns (r: Result<(), Error>)
      modifies client
      ensures Step(client.State(), r) == CleanupSpec(old(client.State()), fg)
    {
      var d := client.DeletePod(PodManager.PodKey(fg));
      if d.Err? && !d.error.NotFound? {
        return d;
      }
      d := client.DeleteService(PodManager.ServiceKey(fg));
      if d.Err? && !d.error.NotFound? {
        return d;
      }
      d := client.DeleteInstance(KeyOf(fg));
      if d.Err? && !d.error.NotFound? {
        return d;
      }
      return Ok(());
    }

    /** The second loop of sweep: a fresh ingress manager syncs each recorded
        namespace once, in the order the set yields them, ignoring errors. */
    method SyncNamespaces(namespaces: set<string>) returns (ghost order: seq<string>)
      modifies client
      ensures multiset(order) == multiset(namespaces)
      ensures client.State() == SyncAll(settings.ingress, old(client.State()), order)
    {
      order := [];
      var ingress := new IngressManager.Manager(client, settings.ingress);
      var remaining := namespaces;
      while remaining != {}
        invariant ingress.client == client && ingress.settings == settings.ingress
        invariant remaining <= namespaces
        invariant multiset(order) + multiset(remaining) == multiset(namespaces)
        invariant client.State() == SyncAll(settings.ingress, old(client.State()), order)
        decreases |remaining|
      {
        var ns :| ns in remaining;
        var _ := ingress.SyncNamespace(ns);
        assert multiset(remaining) == multiset(remaining - {ns}) + multiset{ns};
        assert (order + [ns])[..|order|] == order;
        remaining := remaining - {ns};
        order := order + [ns];
      }
    }

    /** The first loop of sweep: cleans up each expired item in list order and
        records the namespaces of those cleaned up without error. */
    method CleanupExpired(items: seq<Fgtech>, now: int) returns (namespaces: set<string>)
      modifies client
      ensures Swept(client.State(), namespaces) == SweepItems(old(client.State()), items, settings.defaultTTLSeconds, now)
    {
      namespaces := {};
      var i := 0;
      while i < |items|
        invariant 0 <= i <= |items|
        invariant Swept(client.State(), namespaces) == SweepItems(old(client.State()), items[..i], settings.defaultTTLSeconds, now)
      {
        var item := items[i];
        assert items[..i + 1][..i] == items[..i];
        var ttl := PodManager.ResolveTTLSeconds(item, settings.defaultTTLSeconds);
        if ttl > 0 && now >= item.creationTimestamp + ttl {
          var c := Cleanup(item);
          if c.Ok? {
            namespaces := namespaces + {item.namespace};
          }
        }
        i := i + 1;
      }
      assert items[..i] == items;
    }

    /** One sweep at time `now`; `order` is the order in which the recorded
        namespaces happened to be synced. */
    method Sweep(now: int) returns (r: Result<(), Error>, ghost order: seq<string>)
      modifies client
      ensures SweepOrder(settings, old(client.State()), now, order)
      ensures Step(client.State(), r) == SweepSpec(settings, old(client.State()), now, order)
    {
      order := [];
      var listed := client.ListInstances(None);
      if listed.Err? {
        return Err(listed.error), order;
      }
      var namespaces := CleanupExpired(listed.value, now);
      if namespaces != {} {
        order := SyncNamespaces(namespaces);
      }
      return Ok(()), order;
    }
  }
}
