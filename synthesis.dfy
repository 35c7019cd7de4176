/**
 The two pure synthesizers: the canonical Deployment and Service of a MyApp.
 Neither reads anything but its argument, and neither sets the Service's
 virtual address; the platform assigns that.
 */
module Synthesis {
  import opened Wrappers
  import opened Api

  /** The label set {app: name} that ties the pods, the selectors and the app together. */
  function AppLabels(name: string): map<string, string> {
    map["app" := name]
  }

  /** A selector picks out a pod when every key it names carries its value on the pod. */
  predicate Selects(selector: map<string, string>, labels: map<string, string>) {
    forall k :: k in selector ==> k in labels && labels[k] == selector[k]
  }

  /** The controller reference from a dependent to its app (metav1.NewControllerRef). */
  function ControllerRef(app: MyApp): (r: OwnerReference)
    ensures r.apiVersion == "jk.jk.com/v1" && r.kind == app.typeMeta.kind
    ensures r.name == app.meta.name && r.uid == app.meta.uid
    ensures r.controller && r.blockOwnerDeletion
  {
    OwnerReference(Group + "/" + Version, app.typeMeta.kind, app.meta.name, app.meta.uid, true, true)
  }

  /** The dependent names the app as its one owner, as the controlling owner. */
  predicate OwnedBy(meta: ObjectMeta, app: MyApp) {
    meta.ownerReferences == [ControllerRef(app)]
  }

  function DependentMeta(app: MyApp): ObjectMeta {
    ObjectMeta(app.meta.name, app.meta.namespace, "", [ControllerRef(app)], None, false)
  }

  function NewDeployment(app: MyApp): (d: Deployment)
    ensures d.typeMeta == TypeMeta("apps/v1", "Deployment")
    ensures KeyOf(d.meta) == KeyOf(app.meta) && OwnedBy(d.meta, app)
    ensures d.spec.replicas == app.spec.replicas
    ensures d.spec.selector.matchLabels == AppLabels(app.meta.name)
    ensures d.spec.template.labels == AppLabels(app.meta.name)
    ensures Selects(d.spec.selector.matchLabels, d.spec.template.labels)
    ensures |d.spec.template.containers| == 1
    ensures var c := d.spec.template.containers[0];
      && c.name == app.meta.name
      && c.image == app.spec.image
      && c.ports == [ContainerPort("http", app.spec.containerPort)]
  {
    var labels := AppLabels(app.meta.name);
    Deployment(
      TypeMeta("apps/v1", "Deployment"),
      DependentMeta(app),
      DeploymentSpec(
        app.spec.replicas,
        LabelSelector(labels),
        PodTemplateSpec(
          labels,
          [Container(app.meta.name, app.spec.image, PullIfNotPresent,
                     [ContainerPort("http", app.spec.containerPort)])])))
  }

  function NewService(app: MyApp): (s: Service)
    ensures s.typeMeta == TypeMeta("v1", "Service")
    ensures KeyOf(s.meta) == KeyOf(app.meta) && OwnedBy(s.meta, app)
    ensures s.spec.serviceType == TypeNodePort
    ensures s.spec.ports == [ServicePort(TCP, app.spec.servicePort, IntValue(app.spec.containerPort))]
    ensures s.spec.selector == AppLabels(app.meta.name)
    ensures s.spec.clusterIP == ""
  {
    Service(
      TypeMeta("v1", "Service"),
      DependentMeta(app),
      ServiceSpec(
        TypeNodePort,
        [ServicePort(TCP, app.spec.servicePort, IntValue(app.spec.containerPort))],
        AppLabels(app.meta.name),
        ""))
  }

  /**
   The Service routes to the Deployment's pods: its selector picks out the pod
   template's labels, and its one port forwards to the port the one container
   declares.
   */
  lemma ServiceRoutesToDeployment(app: MyApp)
    ensures var d, s := NewDeployment(app), NewService(app);
      && Selects(s.spec.selector, d.spec.template.labels)
      && |s.spec.ports| == 1
      && s.spec.ports[0].targetPort == IntValue(d.spec.template.containers[0].ports[0].containerPort)
      && s.spec.ports[0].port == app.spec.servicePort
  {
  }

  /**
   Selector stability: the three label sets depend on the app's name alone, so
   two apps of the same name (in particular one app before and after a spec
   change) get identical selectors.
   */
  lemma SelectorsDependOnlyOnName(a: MyApp, b: MyApp)
    requires a.meta.name == b.meta.name
    ensures NewDeployment(a).spec.selector == NewDeployment(b).spec.selector
    ensures NewDeployment(a).spec.template.labels == NewDeployment(b).spec.template.labels
    ensures NewService(a).spec.selector == NewService(b).spec.selector
  {
  }

  /**
   The synthesized specs are functions of the app's name and spec alone: the
   rest of the primary's metadata (its annotations, in particular) does not
   reach them.
   */
  lemma SpecsDependOnlyOnNameAndSpec(a: MyApp, b: MyApp)
    requires a.meta.name == b.meta.name && a.spec == b.spec
    ensures NewDeployment(a).spec == NewDeployment(b).spec
    ensures NewService(a).spec == NewService(b).spec
  {
  }
}
