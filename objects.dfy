/**
 * The parts of the Kubernetes API objects that the broker reads or writes:
 * a Secret, a Deployment (with its pod template) and a Service. Fields the
 * broker never touches are represented by one or two stand-ins so that
 * "the template's other fields are kept" can be stated.
 */
module Objects {
  import opened Options

  newtype byte = x: int | 0 <= x < 256

  type Labels = map<string, string>

  datatype ObjectMeta = ObjectMeta(name: string, namespace: string, labels: Labels, annotations: Labels)

  /** `data` is `None` when the parsed template had no data map (a nil Go map). */
  datatype Secret = Secret(meta: ObjectMeta, secretType: string, data: Option<map<string, seq<byte>>>)

  datatype SecretKeyRef = SecretKeyRef(secretName: string, key: string)

  datatype EnvVar = EnvVar(name: string, value: string, valueFrom: Option<SecretKeyRef>)

  datatype Container = Container(name: string, image: string, env: seq<EnvVar>, ports: seq<int>)

  datatype PodSpec = PodSpec(containers: seq<Container>, restartPolicy: string)

  datatype PodTemplate = PodTemplate(meta: ObjectMeta, spec: PodSpec)

  datatype LabelSelector = LabelSelector(matchLabels: Labels, matchExpressions: seq<string>)

  /** `selector` is `None` when the parsed template had no selector (a nil Go pointer). */
  datatype DeploymentSpec = DeploymentSpec(replicas: int, selector: Option<LabelSelector>, template: PodTemplate)

  datatype Deployment = Deployment(meta: ObjectMeta, spec: DeploymentSpec)

  datatype ServiceSpec = ServiceSpec(selector: Labels, ports: seq<int>, serviceType: string)

  datatype Service = Service(meta: ObjectMeta, spec: ServiceSpec)

  datatype Kind = SecretKind | DeploymentKind | ServiceKind

  datatype Object =
    | SecretObject(secret: Secret)
    | DeploymentObject(deployment: Deployment)
    | ServiceObject(service: Service)
  {
    function Kind(): Kind {
      match this
      case SecretObject(_) => SecretKind
      case DeploymentObject(_) => DeploymentKind
      case ServiceObject(_) => ServiceKind
    }

    function Name(): string {
      match this
      case SecretObject(s) => s.meta.name
      case DeploymentObject(d) => d.meta.name
      case ServiceObject(v) => v.meta.name
    }
  }

  /** Kubernetes equality-based selection: every pair of the selector is among the labels. */
  predicate Selects(selector: Labels, labels: Labels) {
    forall k :: k in selector ==> k in labels && labels[k] == selector[k]
  }
}
