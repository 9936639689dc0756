/** A simplified view of the Kubernetes API objects that the generators of
    the virt-operator build: only the fields those generators set or read.
    Values (volumes, containers, env entries, services, disruption budgets)
    are datatypes; the pod spec, pod template and deployment, which the
    generators update in place after building them, are classes. A Go
    slice or map that is nil is the empty sequence or map here. */
module Kube {
  import opened Wrappers

  // ---------------------------------------------------------------------
  // Volumes and mounts

  datatype VolumeSource =
    | EmptyDir
    | Secret(secretName: string, optional: bool)

  datatype Volume = Volume(name: string, source: VolumeSource)

  datatype VolumeMount = VolumeMount(name: string, readOnly: bool, mountPath: string)

  // ---------------------------------------------------------------------
  // Containers

  /** Where an environment variable takes its value from. */
  datatype EnvSource =
    | Literal(value: string)
    | FieldRef(fieldPath: string)

  datatype EnvVar = EnvVar(name: string, source: EnvSource)

  datatype ContainerPort = ContainerPort(name: string, protocol: string, containerPort: int)

  /** An HTTP GET probe; a field the source leaves unset is 0. */
  datatype Probe = Probe(
    scheme: string,
    port: int,
    path: string,
    initialDelaySeconds: int,
    periodSeconds: int,
    timeoutSeconds: int,
    failureThreshold: int)

  /** Resource requests, with the quantities kept as their literal text. */
  datatype ResourceRequests = ResourceRequests(cpu: string, memory: string)

  datatype Container = Container(
    name: string,
    image: string,
    pullPolicy: string,
    command: seq<string>,
    ports: seq<ContainerPort>,
    env: seq<EnvVar>,
    volumeMounts: seq<VolumeMount>,
    readinessProbe: Option<Probe>,
    livenessProbe: Option<Probe>,
    resources: Option<ResourceRequests>)

  /** The container `c` with `m` appended to its volume mounts. */
  function WithMount(c: Container, m: VolumeMount): (r: Container)
    ensures r.volumeMounts == c.volumeMounts + [m]
  {
    c.(volumeMounts := c.volumeMounts + [m])
  }

  // ---------------------------------------------------------------------
  // Scheduling

  datatype Toleration = Toleration(key: string, operator: string)

  datatype LabelSelectorOperator = In | NotIn | Exists | DoesNotExist

  datatype LabelSelectorRequirement =
    Requirement(key: string, operator: LabelSelectorOperator, values: seq<string>)

  datatype WeightedPodAffinityTerm = WeightedTerm(
    weight: int,
    matchExpressions: seq<LabelSelectorRequirement>,
    topologyKey: string)

  /** A pod anti-affinity with preferred (soft) terms only. */
  datatype Affinity = PodAntiAffinity(preferred: seq<WeightedPodAffinityTerm>)

  /** Whether a pod carrying `labels` satisfies the requirement `q`, with the
      meaning Kubernetes gives to the four operators. */
  predicate RequirementMatches(q: LabelSelectorRequirement, labels: map<string, string>)
  {
    match q.operator
    case In => q.key in labels && labels[q.key] in q.values
    case NotIn => q.key !in labels || labels[q.key] !in q.values
    case Exists => q.key in labels
    case DoesNotExist => q.key !in labels
  }

  /** Whether a pod carrying `labels` is selected by the term `t`: every
      expression of the term must hold. */
  predicate TermSelects(t: WeightedPodAffinityTerm, labels: map<string, string>)
  {
    forall i :: 0 <= i < |t.matchExpressions| ==> RequirementMatches(t.matchExpressions[i], labels)
  }

  /** Equality-based selection (`matchLabels`): every key of the selector is a
      label of the pod, with the same value. */
  predicate MatchLabels(selector: map<string, string>, labels: map<string, string>)
  {
    forall key :: key in selector ==> key in labels && labels[key] == selector[key]
  }

  // ---------------------------------------------------------------------
  // Services and disruption budgets

  datatype IntOrString = Int(intVal: int) | Str(strVal: string)

  datatype ServicePort = ServicePort(name: string, port: int, targetPort: IntOrString, protocol: string)

  datatype Service = Service(
    namespace: string,
    name: string,
    labels: map<string, string>,
    selector: map<string, string>,
    ports: seq<ServicePort>,
    serviceType: string)

  datatype PodDisruptionBudget = PodDisruptionBudget(
    namespace: string,
    name: string,
    labels: map<string, string>,
    minAvailable: IntOrString,
    selector: map<string, string>)

  // ---------------------------------------------------------------------
  // Environment lookup

  /** The source of the first entry of `env` named `name`, as a process that
      reads its environment sees it when names are not repeated. */
  function EnvLookup(env: seq<EnvVar>, name: string): (r: Option<EnvSource>)
    ensures r.None? <==> forall i :: 0 <= i < |env| ==> env[i].name != name
    ensures r.Some? ==> exists i :: 0 <= i < |env| && env[i] == EnvVar(name, r.value)
  {
    if env == [] then None
    else if env[0].name == name then Some(env[0].source)
    else
      var r := EnvLookup(env[1..], name);
      assert forall i :: 1 <= i < |env| ==> env[i] == env[1..][i - 1];
      r
  }

  /** An entry whose name no earlier entry carries is the one a lookup of
      that name finds. */
  lemma {:induction false} EnvLookupFinds(env: seq<EnvVar>, i: int)
    requires 0 <= i < |env|
    requires forall j :: 0 <= j < i ==> env[j].name != env[i].name
    ensures EnvLookup(env, env[i].name) == Some(env[i].source)
  {
    if i > 0 {
      assert env[1..][i - 1] == env[i];
      forall j | 0 <= j < i - 1
        ensures env[1..][j].name != env[i].name
      {
        assert env[1..][j] == env[j + 1];
      }
      EnvLookupFinds(env[1..], i - 1);
    }
  }

  // ---------------------------------------------------------------------
  // Objects the generators update in place

  class PodSpec {
    var priorityClassName: string
    var affinity: Affinity
    var tolerations: seq<Toleration>
    var serviceAccountName: string
    /** The pod security context: None while it is unset, else its RunAsNonRoot. */
    var runAsNonRoot: Option<bool>
    var volumes: seq<Volume>
    var containers: seq<Container>

    constructor (priorityClassName: string, affinity: Affinity, tolerations: seq<Toleration>,
                 serviceAccountName: string, runAsNonRoot: Option<bool>, containers: seq<Container>)
      ensures this.priorityClassName == priorityClassName && this.affinity == affinity
      ensures this.tolerations == tolerations && this.serviceAccountName == serviceAccountName
      ensures this.runAsNonRoot == runAsNonRoot && this.containers == containers
      ensures this.volumes == []
    {
      this.priorityClassName := priorityClassName;
      this.affinity := affinity;
      this.tolerations := tolerations;
      this.serviceAccountName := serviceAccountName;
      this.runAsNonRoot := runAsNonRoot;
      this.volumes := [];
      this.containers := containers;
    }
  }

  class PodTemplate {
    var name: string
    var labels: map<string, string>
    var annotations: map<string, string>
    var spec: PodSpec

    constructor (name: string, labels: map<string, string>, annotations: map<string, string>, spec: PodSpec)
      ensures this.name == name && this.labels == labels
      ensures this.annotations == annotations && this.spec == spec
    {
      this.name := name;
      this.labels := labels;
      this.annotations := annotations;
      this.spec := spec;
    }
  }

  class Deployment {
    var namespace: string
    var name: string
    var labels: map<string, string>
    var replicas: int
    /** The `matchLabels` of the deployment's selector. */
    var selector: map<string, string>
    /** Whether the strategy is set to RollingUpdate explicitly. */
    var rollingUpdate: bool
    var template: PodTemplate

    constructor (namespace: string, name: string, labels: map<string, string>, replicas: int,
                 selector: map<string, string>, rollingUpdate: bool, template: PodTemplate)
      ensures this.namespace == namespace && this.name == name && this.labels == labels
      ensures this.replicas == replicas && this.selector == selector
      ensures this.rollingUpdate == rollingUpdate && this.template == template
    {
      this.namespace := namespace;
      this.name := name;
      this.labels := labels;
      this.replicas := replicas;
      this.selector := selector;
      this.rollingUpdate := rollingUpdate;
      this.template := template;
    }
  }
}
