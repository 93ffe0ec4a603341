/** The Kubernetes client as a mutable object whose calls behave as StoreModel says. */
module StoreClient {
  import opened Wrappers
  import opened Api
  import opened Objects
  import opened StoreModel

  class Client {
    var pods: map<Key, Pod>
    var services: map<Key, Service>
    var ingresses: map<Key, Ingress>
    var instances: seq<Fgtech>
    const faults: set<Call>
    var log: seq<Call>

    function State(): StoreState
      reads this
    {
      StoreState(pods, services, ingresses, instances, faults, log)
    }

    constructor (initial: StoreState)
      ensures State() == initial
    {
      pods, services, ingresses := initial.pods, initial.services, initial.ingresses;
      instances, faults, log := initial.instances, initial.faults, initial.log;
    }

    method GetPod(k: Key) returns (r: Result<Pod, Error>)
      modifies this
      ensures Step(State(), r) == StoreModel.GetPod(old(State()), k)
    {
      var ref := Ref(PodKind, k);
      log := log + [Get(ref)];
      if Get(ref) in faults {
        r := Err(Failed(Get(ref)));
      } else if k in pods {
        r := Ok(pods[k]);
      } else {
        r := Err(NotFound(ref));
      }
    }

    method CreatePod(k: Key, p: Pod) returns (r: Result<(), Error>)
      modifies this
      ensures Step(State(), r) == StoreModel.CreatePod(old(State()), k, p)
    {
      var ref := Ref(PodKind, k);
      log := log + [Create(ref)];
      if Create(ref) in faults {
        r := Err(Failed(Create(ref)));
      } else if k in pods {
        r := Err(AlreadyExists(ref));
      } else {
        pods := pods[k := p];
        r := Ok(());
      }
    }

    method DeletePod(k: Key) returns (r: Result<(), Error>)
      modifies this
      ensures Step(State(), r) == StoreModel.DeletePod(old(State()), k)
    {
      var c := Delete(Ref(PodKind, k));
      log := log + [c];
      if c in faults {
        r := Err(Failed(c));
      } else if k in pods {
        pods := pods - {k};
        r := Ok(());
      } else {
        r := Err(NotFound(c.ref));
      }
    }

    method GetService(k: Key) returns (r: Result<Service, Error>)
      modifies this
      ensures Step(State(), r) == StoreModel.GetService(old(State()), k)
    {
      var ref := Ref(ServiceKind, k);
      log := log + [Get(ref)];
      if Get(ref) in faults {
        r := Err(Failed(Get(ref)));
      } else if k in services {
        r := Ok(services[k]);
      } else {
        r := Err(NotFound(ref));
      }
    }

    method CreateService(k: Key, v: Service) returns (r: Result<(), Error>)
      modifies this
      ensures Step(State(), r) == StoreModel.CreateService(old(State()), k, v)
    {
      var ref := Ref(ServiceKind, k);
      log := log + [Create(ref)];
      if Create(ref) in faults {
        r := Err(Failed(Create(ref)));
      } else if k in services {
        r := Err(AlreadyExists(ref));
      } else {
        services := services[k := v];
        r := Ok(());
      }
    }

    method UpdateService(k: Key, v: Service) returns (r: Result<(), Error>)
      modifies this
      ensures Step(State(), r) == StoreModel.UpdateService(old(State()), k, v)
    {
      var c := Update(Ref(ServiceKind, k));
      log := log + [c];
      if c in faults {
        r := Err(Failed(c));
      } else if k in services {
        services := services[k := v];
        r := Ok(());
      } else {
        r := Err(NotFound(c.ref));
      }
    }

    method DeleteService(k: Key) returns (r: Result<(), Error>)
      modifies this
      ensures Step(State(), r) == StoreModel.DeleteService(old(State()), k)
    {
      var c := Delete(Ref(ServiceKind, k));
      log := log + [c];
      if c in faults {
        r := Err(Failed(c));
      } else if k in services {
        services := services - {k};
        r := Ok(());
      } else {
        r := Err(NotFound(c.ref));
      }
    }

    method GetIngress(k: Key) returns (r: Result<Ingress, Error>)
      modifies this
      ensures Step(State(), r) == StoreModel.GetIngress(old(State()), k)
    {
      var ref := Ref(IngressKind, k);
      log := log + [Get(ref)];
      if Get(ref) in faults {
        r := Err(Failed(Get(ref)));
      } else if k in ingresses {
        r := Ok(ingresses[k]);
      } else {
        r := Err(NotFound(ref));
      }
    }

    method CreateIngress(k: Key, v: Ingress) returns (r: Result<(), Error>)
      modifies this
      ensures Step(State(), r) == StoreModel.CreateIngress(old(State()), k, v)
    {
      var ref := Ref(IngressKind, k);
      log := log + [Create(ref)];
      if Create(ref) in faults {
        r := Err(Failed(Create(ref)));
      } else if k in ingresses {
        r := Err(AlreadyExists(ref));
      } else {
        ingresses := ingresses[k := v];
        r := Ok(());
      }
    }

    method UpdateIngress(k: Key, v: Ingress) returns (r: Result<(), Error>)
      modifies this
      ensures Step(State(), r) == StoreModel.UpdateIngress(old(State()), k, v)
    {
      var c := Update(Ref(IngressKind, k));
      log := log + [c];
      if c in faults {
        r := Err(Failed(c));
      } else if k in ingresses {
        ingresses := ingresses[k := v];
        r := Ok(());
      } else {
        r := Err(NotFound(c.ref));
      }
    }

    method GetInstance(k: Key) returns (r: Result<Fgtech, Error>)
      modifies this
      ensures Step(State(), r) == StoreModel.GetInstance(old(State()), k)
    {
      var ref := Ref(FgtechKind, k);
      log := log + [Get(ref)];
      var found := FindInstance(instances, k);
      if Get(ref) in faults {
        r := Err(Failed(Get(ref)));
      } else if found.Some? {
        r := Ok(found.value);
      } else {
        r := Err(NotFound(ref));
      }
    }

    method DeleteInstance(k: Key) returns (r: Result<(), Error>)
      modifies this
      ensures Step(State(), r) == StoreModel.DeleteInstance(old(State()), k)
    {
      var c := Delete(Ref(FgtechKind, k));
      log := log + [c];
      if c in faults {
        r := Err(Failed(c));
      } else if FindInstance(instances, k).Some? {
        instances := RemoveInstance(instances, k);
        r := Ok(());
      } else {
        r := Err(NotFound(c.ref));
      }
    }

    method ListInstances(ns: Option<string>) returns (r: Result<seq<Fgtech>, Error>)
      modifies this
      ensures Step(State(), r) == StoreModel.ListInstances(old(State()), ns)
    {
      log := log + [List(ns)];
      if List(ns) in faults {
        r := Err(Failed(List(ns)));
      } else {
        r := Ok(InNamespace(instances, ns));
      }
    }
  }
}
