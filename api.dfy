/** The Kubernetes object shapes the core reads and writes, reduced to the
    fields it touches (apps/v1 Deployment, core/v1 Service, networking/v1
    Ingress, admission/v1 AdmissionReview). */
module Api {
  import opened Wrappers

  newtype byte = b: int | 0 <= b < 256

  type Labels = map<string, string>

  datatype EnvVar = EnvVar(name: string, value: string)

  datatype Container = Container(name: string, image: string, env: seq<EnvVar>)

  /** A Deployment: `replicas` is the `*int32` of `Spec.Replicas` and
      `templateLabels` the possibly-nil `Spec.Template.Labels`. */
  datatype Deployment = Deployment(
    name: string,
    namespace: string,
    uid: string,
    replicas: Option<int>,
    templateLabels: Option<Labels>,
    initContainers: seq<Container>,
    containers: seq<Container>)

  /** The identity of a namespaced object. */
  datatype Ref = Ref(namespace: string, name: string)

  datatype ObjectMeta = ObjectMeta(name: string, namespace: string, labels: Labels, annotations: Labels)

  datatype ServicePort = ServicePort(name: string, port: int)

  /** A Service; a nil selector is `None`. */
  datatype Service = Service(meta: ObjectMeta, selector: Option<Labels>, ports: seq<ServicePort>)

  datatype IngressPath = IngressPath(path: string, pathType: string, backendService: string, backendPort: int)

  datatype IngressRule = IngressRule(host: string, paths: seq<IngressPath>)

  datatype Ingress = Ingress(meta: ObjectMeta, rules: seq<IngressRule>)

  function ServiceRef(s: Service): Ref { Ref(s.meta.namespace, s.meta.name) }

  function IngressRef(i: Ingress): Ref { Ref(i.meta.namespace, i.meta.name) }

  const PathTypePrefix := "Prefix"
  const WorkloadLabel := "rahulxf.io/workload"
  const RewriteAnnotation := "nginx.ingress.kubernetes.io/rewrite-target"
  const IngressHost := "demo.local"

  /** Admission envelope. */
  datatype TypeMeta = TypeMeta(apiVersion: string, kind: string)

  datatype AdmissionRequest = AdmissionRequest(uid: string, raw: seq<byte>)

  /** `metav1.Status`; an unset `Code` is 0. */
  datatype Status = Status(code: int, message: string)

  datatype AdmissionResponse = AdmissionResponse(uid: string, allowed: bool, result: Status)

  datatype AdmissionReview = AdmissionReview(
    typeMeta: TypeMeta,
    request: Option<AdmissionRequest>,
    response: Option<AdmissionResponse>)

  /** An inbound HTTP request: its `Content-Type` header, the bytes reading
      the body produced and the error that read reported, if any. */
  datatype HttpRequest = HttpRequest(contentType: string, body: seq<byte>, readError: Option<string>)

  /** What a handler writes back: an `http.Error` or a JSON body. */
  datatype HttpReply = HttpError(status: int, message: string) | HttpJson(body: seq<byte>)

  const StatusBadRequest := 400
  const StatusInternalServerError := 500
  const ContentTypeJson := "application/json"
}
