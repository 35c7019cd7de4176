/** Option, for values the source represents with a nil pointer or a nil map. */
module Wrappers {
  datatype Option<T> = None | Some(value: T)
}

/**
 The slice of the Kubernetes object schemas that the MyApp reconciler reads or
 writes: the primary MyApp resource, the Deployment (workload) and the Service
 (network endpoint). Every field the reconciler never touches is omitted.
 */
module Api {
  import opened Wrappers

  /** Go's int32, the width of replica counts and port numbers in the API types. */
  newtype Int32 = x: int | -0x8000_0000 <= x < 0x8000_0000

  /** API group and version of the MyApp kind, used in owner references. */
  const Group := "jk.jk.com"
  const Version := "v1"

  /** A namespace-qualified object name (controller-runtime's NamespacedName). */
  datatype Key = Key(namespace: string, name: string)

  datatype TypeMeta = TypeMeta(apiVersion: string, kind: string)

  datatype OwnerReference = OwnerReference(
    apiVersion: string,
    kind: string,
    name: string,
    uid: string,
    controller: bool,
    blockOwnerDeletion: bool)

  /**
   Object metadata. `annotations` is None for Go's nil map; `deleting` is true
   once a deletion timestamp has been set.
   */
  datatype ObjectMeta = ObjectMeta(
    name: string,
    namespace: string,
    uid: string,
    ownerReferences: seq<OwnerReference>,
    annotations: Option<map<string, string>>,
    deleting: bool)

  function KeyOf(meta: ObjectMeta): Key {
    Key(meta.namespace, meta.name)
  }

  /** The declared state of one application. `replicas` is a pointer in the source. */
  datatype MyAppSpec = MyAppSpec(
    image: string,
    replicas: Option<Int32>,
    containerPort: Int32,
    servicePort: Int32)

  datatype MyApp = MyApp(typeMeta: TypeMeta, meta: ObjectMeta, spec: MyAppSpec)

  datatype PullPolicy = PullAlways | PullNever | PullIfNotPresent

  datatype ContainerPort = ContainerPort(name: string, containerPort: Int32)

  datatype Container = Container(
    name: string,
    image: string,
    imagePullPolicy: PullPolicy,
    ports: seq<ContainerPort>)

  datatype PodTemplateSpec = PodTemplateSpec(labels: map<string, string>, containers: seq<Container>)

  datatype LabelSelector = LabelSelector(matchLabels: map<string, string>)

  datatype DeploymentSpec = DeploymentSpec(
    replicas: Option<Int32>,
    selector: LabelSelector,
    template: PodTemplateSpec)

  datatype Deployment = Deployment(typeMeta: TypeMeta, meta: ObjectMeta, spec: DeploymentSpec)

  datatype ServiceType = TypeClusterIP | TypeNodePort | TypeLoadBalancer | TypeExternalName

  datatype Protocol = TCP | UDP | SCTP

  datatype IntOrString = IntValue(intVal: Int32) | StringValue(strVal: string)

  datatype ServicePort = ServicePort(protocol: Protocol, port: Int32, targetPort: IntOrString)

  /** `clusterIP` is the virtual address; "" until the platform assigns one. */
  datatype ServiceSpec = ServiceSpec(
    serviceType: ServiceType,
    ports: seq<ServicePort>,
    selector: map<string, string>,
    clusterIP: string)

  datatype Service = Service(typeMeta: TypeMeta, meta: ObjectMeta, spec: ServiceSpec)
}
