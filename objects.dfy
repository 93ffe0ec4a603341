/** The Kubernetes objects the operator writes, reduced to the fields it sets or compares. */
module Objects {
  import opened Wrappers
  import opened Api

  datatype EnvVar = EnvVar(name: string, value: string)
  datatype ContainerPort = ContainerPort(name: string, containerPort: Int32)
  datatype VolumeMount = VolumeMount(name: string, mountPath: string)
  datatype Container = Container(
    name: string,
    image: string,
    env: seq<EnvVar>,
    ports: seq<ContainerPort>,
    volumeMounts: seq<VolumeMount>)
  /** A volume backed by a secret. */
  datatype Volume = Volume(name: string, secretName: string)
  datatype PodSpec = PodSpec(
    activeDeadlineSeconds: Option<Int64>,
    serviceAccountName: string,
    volumes: seq<Volume>,
    containers: seq<Container>)
  /** `owner` stands for the controller owner reference: the name of the owning Fgtech. */
  datatype Pod = Pod(labels: map<string, string>, owner: Option<string>, spec: PodSpec)

  /** `targetPort` is the integer an IntOrString yields. */
  datatype ServicePort = ServicePort(name: string, port: Int32, targetPort: int)
  /** `serviceType` is "" when unset, as in Go. */
  datatype ServiceSpec = ServiceSpec(selector: map<string, string>, ports: seq<ServicePort>, serviceType: string)
  datatype Service = Service(labels: map<string, string>, owner: Option<string>, spec: ServiceSpec)

  datatype PathType = Prefix | Exact | ImplementationSpecific
  /** A service backend: service name and port number. */
  datatype ServiceBackend = ServiceBackend(name: string, port: int)
  /** An ingress backend whose service pointer may be nil. */
  datatype Backend = Backend(service: Option<ServiceBackend>)
  datatype HttpPath = HttpPath(path: string, pathType: Option<PathType>, backend: Backend)
  /** `http` is nil for a host-only rule. */
  datatype Rule = Rule(host: string, http: Option<seq<HttpPath>>)
  datatype Tls = Tls(hosts: seq<string>, secretName: string)
  datatype IngressSpec = IngressSpec(
    className: Option<string>,
    defaultBackend: Option<Backend>,
    tls: seq<Tls>,
    rules: seq<Rule>)
  datatype Ingress = Ingress(labels: map<string, string>, spec: IngressSpec)

  /** controller-runtime's reconcile result. */
  datatype ReconcileResult = ReconcileResult(requeue: bool, requeueAfter: int)

  const Done := ReconcileResult(false, 0)

  /** Go's `m[k]` on a map of strings: the zero value "" for a missing key. */
  function Lookup(m: map<string, string>, k: string): string
  {
    if k in m then m[k] else ""
  }
}
