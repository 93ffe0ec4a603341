/** The object store as a value: what each Kubernetes client call does to it.

    Objects are keyed by kind, namespace and name. Pods, services and ingresses
    live in one map per kind; Fgtech instances live in a sequence, which is the
    order in which the store lists them. `faults` is the set of calls that fail
    with an error other than NotFound (a network error, a conflict, a refused
    permission); every call issued, failed or not, is appended to `log`. */
module StoreModel {
  import opened Wrappers
  import opened Api
  import opened Objects

  datatype Key = Key(namespace: string, name: string)
  datatype Kind = PodKind | ServiceKind | IngressKind | FgtechKind
  datatype Ref = Ref(kind: Kind, key: Key)

  /** A client call; a List with no namespace lists every namespace. */
  datatype Call =
    | Get(ref: Ref)
    | List(namespace: Option<string>)
    | Create(ref: Ref)
    | Update(ref: Ref)
    | Delete(ref: Ref)

  /** NotFound and AlreadyExists are the store's answers about existence;
      Failed is any other error of a call; Invalid is a configuration error. */
  datatype Error =
    | NotFound(ref: Ref)
    | AlreadyExists(ref: Ref)
    | Failed(call: Call)
    | Invalid(message: string)

  datatype StoreState = StoreState(
    pods: map<Key, Pod>,
    services: map<Key, Service>,
    ingresses: map<Key, Ingress>,
    instances: seq<Fgtech>,
    faults: set<Call>,
    log: seq<Call>)

  /** The state after a call, and what the call returned. */
  datatype Step<T> = Step(state: StoreState, result: Result<T, Error>)

  function KeyOf(fg: Fgtech): Key
  {
    Key(fg.namespace, fg.name)
  }

  predicate IsWrite(c: Call)
  {
    c.Create? || c.Update? || c.Delete?
  }

  /** The store's contents, without the fault set and the call log. */
  predicate SameObjects(s: StoreState, t: StoreState)
  {
    s.pods == t.pods && s.services == t.services && s.ingresses == t.ingresses && s.instances == t.instances
  }

  /** `t` is reached from `s` by issuing calls: same faults, log extended. */
  predicate Extends(s: StoreState, t: StoreState)
  {
    t.faults == s.faults && |s.log| <= |t.log| && t.log[..|s.log|] == s.log
  }

  /** The calls issued between `s` and `t`. */
  function NewCalls(s: StoreState, t: StoreState): seq<Call>
    requires Extends(s, t)
  {
    t.log[|s.log|..]
  }

  /** Going from `s` to `t` issued no create, update or delete and changed no object. */
  predicate Quiet(s: StoreState, t: StoreState)
  {
    && Extends(s, t)
    && SameObjects(s, t)
    && forall i :: |s.log| <= i < |t.log| ==> !IsWrite(t.log[i])
  }

  /** Every error of `step` is a call of the fault set, the last call issued. */
  predicate ErrorsAreFaults<T>(s: StoreState, step: Step<T>)
  {
    step.result.Err? ==>
      && step.result.error.Failed? && step.result.error.call in s.faults
      && |step.state.log| > 0 && step.state.log[|step.state.log| - 1] == step.result.error.call
  }

  lemma ExtendsTransitive(s: StoreState, t: StoreState, u: StoreState)
    requires Extends(s, t) && Extends(t, u)
    ensures Extends(s, u)
  {
    assert u.log[..|s.log|] == u.log[..|t.log|][..|s.log|];
  }

  lemma QuietTransitive(s: StoreState, t: StoreState, u: StoreState)
    requires Quiet(s, t) && Quiet(t, u)
    ensures Quiet(s, u)
  {
    ExtendsTransitive(s, t, u);
    forall i | |s.log| <= i < |t.log| ensures !IsWrite(u.log[i]) {
      assert u.log[i] == u.log[..|t.log|][i];
    }
  }

  function Issue(s: StoreState, c: Call): StoreState
  {
    s.(log := s.log + [c])
  }

  /** Propagates an error, or replaces a success by `v`. */
  function Then<T>(step: Step<()>, v: T): Step<T>
  {
    Step(step.state, if step.result.Ok? then Ok(v) else Err(step.result.error))
  }

  /** Then keeps the state and the error of the step it continues. */
  lemma ThenKeepsErrors<T>(s: StoreState, step: Step<()>, v: T)
    ensures Then(step, v).state == step.state
    ensures Then(step, v).result.Err? <==> step.result.Err?
    ensures step.result.Err? ==> Then(step, v).result == Err(step.result.error)
    ensures ErrorsAreFaults(s, step) ==> ErrorsAreFaults(s, Then(step, v))
  {
  }

  function ReadOutcome<V>(m: map<Key, V>, faults: set<Call>, ref: Ref): Result<V, Error>
  {
    if Get(ref) in faults then Err(Failed(Get(ref)))
    else if ref.key in m then Ok(m[ref.key])
    else Err(NotFound(ref))
  }

  function CreateOutcome<V>(m: map<Key, V>, faults: set<Call>, ref: Ref): Result<(), Error>
  {
    if Create(ref) in faults then Err(Failed(Create(ref)))
    else if ref.key in m then Err(AlreadyExists(ref))
    else Ok(())
  }

  /** The outcome of an update or a delete: both need the object to exist. */
  function ChangeOutcome<V>(m: map<Key, V>, faults: set<Call>, c: Call): Result<(), Error>
    requires c.Update? || c.Delete?
  {
    if c in faults then Err(Failed(c))
    else if c.ref.key in m then Ok(())
    else Err(NotFound(c.ref))
  }

  // ---- pods ----

  function GetPod(s: StoreState, k: Key): Step<Pod>
  {
    var ref := Ref(PodKind, k);
    Step(Issue(s, Get(ref)), ReadOutcome(s.pods, s.faults, ref))
  }

  function CreatePod(s: StoreState, k: Key, p: Pod): Step<()>
  {
    var ref := Ref(PodKind, k);
    var r := CreateOutcome(s.pods, s.faults, ref);
    Step(Issue(s, Create(ref)).(pods := if r.Ok? then s.pods[k := p] else s.pods), r)
  }

  function DeletePod(s: StoreState, k: Key): Step<()>
  {
    var c := Delete(Ref(PodKind, k));
    var r := ChangeOutcome(s.pods, s.faults, c);
    Step(Issue(s, c).(pods := if r.Ok? then s.pods - {k} else s.pods), r)
  }

  // ---- services ----

  function GetService(s: StoreState, k: Key): Step<Service>
  {
    var ref := Ref(ServiceKind, k);
    Step(Issue(s, Get(ref)), ReadOutcome(s.services, s.faults, ref))
  }

  function CreateService(s: StoreState, k: Key, v: Service): Step<()>
  {
    var ref := Ref(ServiceKind, k);
    var r := CreateOutcome(s.services, s.faults, ref);
    Step(Issue(s, Create(ref)).(services := if r.Ok? then s.services[k := v] else s.services), r)
  }

  function UpdateService(s: StoreState, k: Key, v: Service): Step<()>
  {
    var c := Update(Ref(ServiceKind, k));
    var r := ChangeOutcome(s.services, s.faults, c);
    Step(Issue(s, c).(services := if r.Ok? then s.services[k := v] else s.services), r)
  }

  function DeleteService(s: StoreState, k: Key): Step<()>
  {
    var c := Delete(Ref(ServiceKind, k));
    var r := ChangeOutcome(s.services, s.faults, c);
    Step(Issue(s, c).(services := if r.Ok? then s.services - {k} else s.services), r)
  }

  // ---- ingresses ----

  function GetIngress(s: StoreState, k: Key): Step<Ingress>
  {
    var ref := Ref(IngressKind, k);
    Step(Issue(s, Get(ref)), ReadOutcome(s.ingresses, s.faults, ref))
  }

  function CreateIngress(s: StoreState, k: Key, v: Ingress): Step<()>
  {
    var ref := Ref(IngressKind, k);
    var r := CreateOutcome(s.ingresses, s.faults, ref);
    Step(Issue(s, Create(ref)).(ingresses := if r.Ok? then s.ingresses[k := v] else s.ingresses), r)
  }

  function UpdateIngress(s: StoreState, k: Key, v: Ingress): Step<()>
  {
    var c := Update(Ref(IngressKind, k));
    var r := ChangeOutcome(s.ingresses, s.faults, c);
    Step(Issue(s, c).(ingresses := if r.Ok? then s.ingresses[k := v] else s.ingresses), r)
  }

  // ---- Fgtech instances ----

  /** The first listed instance with key `k`. */
  function FindInstance(xs: seq<Fgtech>, k: Key): (r: Option<Fgtech>)
    ensures r.Some? ==> r.value in xs && KeyOf(r.value) == k
    ensures r.None? ==> forall fg :: fg in xs ==> KeyOf(fg) != k
  {
    if xs == [] then None
    else if KeyOf(xs[0]) == k then Some(xs[0])
    else FindInstance(xs[1..], k)
  }

  /** The listed instances, in order, without those with key `k`. */
  function RemoveInstance(xs: seq<Fgtech>, k: Key): (r: seq<Fgtech>)
    ensures forall fg :: fg in r <==> fg in xs && KeyOf(fg) != k
  {
    if xs == [] then []
    else (if KeyOf(xs[0]) == k then [] else [xs[0]]) + RemoveInstance(xs[1..], k)
  }

  /** The listed instances of one namespace, in order (all of them for None). */
  function InNamespace(xs: seq<Fgtech>, ns: Option<string>): (r: seq<Fgtech>)
    ensures forall fg :: fg in r <==> fg in xs && (ns.Some? ==> fg.namespace == ns.value)
    ensures |r| <= |xs|
  {
    if xs == [] then []
    else (if ns.None? || xs[0].namespace == ns.value then [xs[0]] else []) + InNamespace(xs[1..], ns)
  }

  function GetInstance(s: StoreState, k: Key): Step<Fgtech>
  {
    var ref := Ref(FgtechKind, k);
    var found := FindInstance(s.instances, k);
    Step(Issue(s, Get(ref)),
         if Get(ref) in s.faults then Err(Failed(Get(ref)))
         else if found.Some? then Ok(found.value)
         else Err(NotFound(ref)))
  }

  function DeleteInstance(s: StoreState, k: Key): Step<()>
  {
    var c := Delete(Ref(FgtechKind, k));
    var r := if c in s.faults then Err(Failed(c))
             else if FindInstance(s.instances, k).Some? then Ok(())
             else Err(NotFound(c.ref));
    Step(Issue(s, c).(instances := if r.Ok? then RemoveInstance(s.instances, k) else s.instances), r)
  }

  function ListInstances(s: StoreState, ns: Option<string>): Step<seq<Fgtech>>
  {
    var c := List(ns);
    Step(Issue(s, c), if c in s.faults then Err(Failed(c)) else Ok(InNamespace(s.instances, ns)))
  }
}
