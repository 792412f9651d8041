/**
 * The child objects the RGB controller creates: Pods and Deployments reduced to
 * the fields its two factories fill in, and the factories themselves.
 */
module RGBObjects {
  import opened RGBTypes

  type Labels = map<string, string>

  datatype ContainerPort = ContainerPort(name: string, protocol: string, containerPort: int)

  datatype Container = Container(name: string, image: string, ports: seq<ContainerPort>)

  datatype ObjectMeta = ObjectMeta(name: string, namespace: string, labels: Labels)

  datatype Pod = Pod(meta: ObjectMeta, containers: seq<Container>)

  /** A Deployment: its own metadata, the replica count, the label selector and
      the pod template (template labels plus template containers). */
  datatype Deployment = Deployment(
    meta: ObjectMeta,
    replicas: int,
    selector: Labels,
    templateLabels: Labels,
    templateContainers: seq<Container>)

  /** A child of either kind, as the store keeps it. */
  datatype Item = PodItem(pod: Pod) | DeploymentItem(deployment: Deployment) {
    function Kind(): RGBSupportedKind {
      if PodItem? then PodKind else DeploymentKind
    }

    function Meta(): ObjectMeta {
      if PodItem? then pod.meta else deployment.meta
    }

    /** `d.Labels[key] = value` on the item's own metadata. */
    function WithLabel(key: string, value: string): (r: Item)
      ensures r.Kind() == Kind()
      ensures r.Meta() == Meta().(labels := Meta().labels[key := value])
      ensures DeploymentItem? ==>
        && r.deployment.selector == deployment.selector
        && r.deployment.templateLabels == deployment.templateLabels
        && r.deployment.replicas == deployment.replicas
    {
      match this
      case PodItem(p) => PodItem(p.(meta := p.meta.(labels := p.meta.labels[key := value])))
      case DeploymentItem(d) => DeploymentItem(d.(meta := d.meta.(labels := d.meta.labels[key := value])))
    }
  }

  const NginxImage: string := "nginx"
  const ProtocolTCP: string := "TCP"

  /** The single container both factories use: nginx, exposing TCP port 80 as "http". */
  function NginxContainer(name: string): (c: Container)
    ensures c.name == name && c.image == NginxImage
    ensures |c.ports| == 1 && c.ports[0].name == "http"
    ensures c.ports[0].protocol == ProtocolTCP && c.ports[0].containerPort == 80
  {
    Container(name, NginxImage, [ContainerPort("http", ProtocolTCP, 80)])
  }

  /** createPodObj: a pod labelled {labelkey: labelvalue} running one nginx container. */
  function CreatePodObj(namespace: string, name: string, labelKey: string, labelValue: string): (p: Pod)
    ensures p.meta.name == name && p.meta.namespace == namespace
    ensures p.meta.labels.Keys == {labelKey} && p.meta.labels[labelKey] == labelValue
    ensures p.containers == [NginxContainer(name)]
  {
    Pod(ObjectMeta(name, namespace, map[labelKey := labelValue]), [NginxContainer(name)])
  }

  /** createDeploymentObj: a deployment whose own labels, selector and template
      labels are all {labelkey: labelvalue}, with `replicas` replicas of the
      same single-container pod that createPodObj builds. */
  function CreateDeploymentObj(namespace: string, name: string, replicas: int,
                               labelKey: string, labelValue: string): (d: Deployment)
    ensures d.meta.name == name && d.meta.namespace == namespace
    ensures d.meta.labels.Keys == {labelKey} && d.meta.labels[labelKey] == labelValue
    ensures d.selector == d.templateLabels == d.meta.labels
    ensures d.replicas == replicas
    ensures d.templateContainers == CreatePodObj(namespace, name, labelKey, labelValue).containers
  {
    var labels := map[labelKey := labelValue];
    Deployment(ObjectMeta(name, namespace, labels), replicas, labels, labels, [NginxContainer(name)])
  }

  /** A label selector matches a label set when every selector pair is present. */
  predicate Matches(selector: Labels, labels: Labels) {
    forall k :: k in selector ==> k in labels && labels[k] == selector[k]
  }

  /** A Deployment built by the factory selects the pods of its own template. */
  lemma DeploymentSelectsOwnTemplate(namespace: string, name: string, replicas: int,
                                     labelKey: string, labelValue: string)
    ensures var d := CreateDeploymentObj(namespace, name, replicas, labelKey, labelValue);
            Matches(d.selector, d.templateLabels)
  {
  }
}
