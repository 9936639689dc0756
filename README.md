# KubeVirt component deployments, modelled in Dafny

This project models the generators in
`pkg/virt-operator/resource/generate/components/deployments.go` of KubeVirt's
virt-operator. These generators build the Kubernetes objects that run
KubeVirt's control plane:

- the Deployments of virt-api, virt-controller and virt-operator;
- the Prometheus metrics Service and the virt-api Service;
- the PodDisruptionBudget derived from a Deployment.

The model keeps only the fields the generators set or read. Values such as
volumes, mounts, containers, env entries, services and budgets are
datatypes. The pod spec, pod template and deployment are classes, because
the generators build them first and then change them in place:

- they add labels;
- they append volumes and mounts;
- they set the service account and the security context;
- they fill in the container's command, ports, probes and resources;
- they extend the env.

Files:

- `wrappers.dfy`: `Option`, used for Go pointers and slices that may be nil.
- `kube.dfy`: the simplified Kubernetes types, and what a label selector
  (`matchLabels` and `matchExpressions`) means. It also has an env lookup
  with first-match semantics.
- `components.dfy`: the generators themselves. It holds the version
  separator and image references, the label rules, the services, the
  anti-affinity, and the pod-template and deployment builders. The builders
  are methods, and each one states the whole state it leaves behind. It also
  holds the operator's env and the disruption budget.
- `component_lemmas.dfy`: properties that span generators:
  - every component runs a different image;
  - each selector, anti-affinity and service picks the pods it is meant to;
  - the budget covers its deployment's pods;
  - the operator reads each env name it is given.

Constants defined outside deployments.go are parameters. They are bundled
as `LabelKeys`, `EnvNames` and `Externals`. The label keys and env names are
assumed distinct, as the real constants are. The selector lemmas also assume
that the app label key is `kubevirt.io`, the literal the base deployments
select on (line 221).

## Model

| member | source | states |
|---|---|---|
| Components.DigestIsNotTemplate | pkg/virt-operator/resource/generate/components/deployments.go:586-588 | A version starting with `sha256:` never starts with `{{if`, so the digest branch and the template branch never overlap |
| Components.VersionSeparatorKinds | pkg/virt-operator/resource/generate/components/deployments.go:582-592 | The result ends with the version. It starts with `@` iff the version is a digest, and with `:` iff the version is neither a digest nor a template. It equals the version iff the version is a template |
| Components.VersionSeparatorRoundTrip | pkg/virt-operator/resource/generate/components/deployments.go:582-592 | Dropping the added separator gives the version back, so no two versions share a separated form |
| Components.ImageReferenceParts | pkg/virt-operator/resource/generate/components/deployments.go:137 | An image is `repository/imageName` followed by a suffix, and the version can be read back from that suffix |
| ComponentProperties.ImageReferenceVersionInjective | pkg/virt-operator/resource/generate/components/deployments.go:137 | Two versions give the same image of a component only if they are equal |
| ComponentProperties.ComponentImagesDiffer | pkg/virt-operator/resource/generate/components/deployments.go:264-266 | With one repository and prefix, virt-api, virt-controller, virt-operator and virt-launcher never run the same image, whatever the versions |
| Components.AddProductLabelsSpec | pkg/virt-operator/resource/generate/components/deployments.go:144-150 | Adding product labels keeps every other label. It adds the version label exactly when the product version is non-empty and the part-of label exactly when the product name is non-empty, each with the given value |
| Components.PodTemplateLabelsSpec | pkg/virt-operator/resource/generate/components/deployments.go:119-150 | A pod template always has app = pod name and an empty Prometheus label. It has the version and part-of labels iff they are given, with their values, and no other labels |
| Components.DeploymentLabelsSpec | pkg/virt-operator/resource/generate/components/deployments.go:209-234 | A base deployment always has app = app-name = deployment name. It has the version and part-of labels iff they are given, with their values, and no other labels |
| Components.NewPrometheusService | pkg/virt-operator/resource/generate/components/deployments.go:49-81 | The metrics service selects a pod iff the pod has the Prometheus label with an empty value. It forwards port 443 to the `metrics` port |
| Components.NewApiServerService | pkg/virt-operator/resource/generate/components/deployments.go:83-113 | The virt-api service selects a pod iff the pod's app label is `virt-api`. It forwards port 443 to 8443 |
| Components.PodAntiAffinitySelects | pkg/virt-operator/resource/generate/components/deployments.go:239-261 | One preferred term of weight 1 over the given topology key. The term selects a pod iff the pod satisfies the single requirement |
| Components.TemplateEnv | pkg/virt-operator/resource/generate/components/deployments.go:152-154 | The container env is non-empty iff the env list is given and non-empty, and then it is that list |
| Components.NewPodTemplateSpec | pkg/virt-operator/resource/generate/components/deployments.go:115-157 | Fresh template: the critical annotations, the labels of PodTemplateLabels, the critical priority class and toleration, and the given affinity. It has one container with the pod's name, the image `ImageReference(repository, imageName, version)`, the pull policy, and the env of TemplateEnv |
| Components.AttachProfileVolume | pkg/virt-operator/resource/generate/components/deployments.go:159-174 | Appends the `profile-data` empty-dir volume and mounts it at `/profile-data` in the first container. Other containers and other pod fields are unchanged |
| Components.AttachCertificateSecret | pkg/virt-operator/resource/generate/components/deployments.go:176-195 | Appends an optional secret volume named after the secret, and a read-only mount of it at the given path in the first container. Other containers and other pod fields are unchanged |
| Components.NewBaseDeployment | pkg/virt-operator/resource/generate/components/deployments.go:197-237 | Fresh deployment: two replicas, selector `{kubevirt.io: name}`, no explicit strategy, the labels of DeploymentLabels, and the template NewPodTemplateSpec builds |
| Components.NewApiServerDeployment | pkg/virt-operator/resource/generate/components/deployments.go:263-329 | The virt-api deployment's whole state. Volumes are, in order, the api cert, the handler cert and profile-data, with matching mounts. The image is the virt-api ImageReference. It also fixes the command, ports, readiness probe on the subresource health path, resources, service account and RunAsNonRoot |
| Components.NewControllerDeployment | pkg/virt-operator/resource/generate/components/deployments.go:331-407 | The virt-controller deployment's whole state. Its `--launcher-image` argument is the virt-launcher ImageReference at the launcher version. Volumes are the controller cert, then profile-data |
| Components.OperatorEnvShape | pkg/virt-operator/resource/generate/components/deployments.go:495-557 | The operator env starts with the image entry and the WATCH_NAMESPACE entry. The five version and shasum entries follow iff all five are non-empty. The gs entry ends the env iff it is also given. The length is 2, 7 or 8 |
| Components.NewOperatorDeployment | pkg/virt-operator/resource/generate/components/deployments.go:410-563 | The virt-operator deployment's whole state. It selects on its app label and uses a rolling update. Its env is OperatorEnv of its own image. Volumes are the operator cert, then profile-data |
| Components.NewPodDisruptionBudgetForDeployment | pkg/virt-operator/resource/generate/components/deployments.go:594-612 | The name is the deployment's name followed by `-pdb`, in the deployment's namespace, and its app label is that name. MinAvailable is 1 and the selector equals the deployment's |
| Kube.WithMount | pkg/virt-operator/resource/generate/components/deployments.go:172 | Appending a mount keeps the container's old mounts as a prefix and adds exactly the new one |
| ComponentProperties.BaseDeploymentSelectsOwnPods | pkg/virt-operator/resource/generate/components/deployments.go:218-222 | A base deployment's selector matches a pod template iff the template was built for the same name |
| ComponentProperties.OperatorDeploymentSelectsOwnPods | pkg/virt-operator/resource/generate/components/deployments.go:433-446 | The operator's selector matches exactly the operator's pod templates |
| ComponentProperties.AntiAffinityRepelsOwnReplicas | pkg/virt-operator/resource/generate/components/deployments.go:264 | A component's anti-affinity selects a pod template iff it belongs to the same component |
| ComponentProperties.PrometheusServiceSelectsEveryPod | pkg/virt-operator/resource/generate/components/deployments.go:63-66 | The metrics service selects every pod template the generators build |
| ComponentProperties.ApiServiceSelectsApiPods | pkg/virt-operator/resource/generate/components/deployments.go:96-99 | The virt-api service selects a generated pod template iff it is a virt-api one |
| ComponentProperties.DisruptionBudgetCoversPods | pkg/virt-operator/resource/generate/components/deployments.go:597 | The budget of a base deployment selects that deployment's pods |
| ComponentProperties.DisruptionBudgetNamesDistinct | pkg/virt-operator/resource/generate/components/deployments.go:595 | No budget is named like its deployment, and deployments with different names get budgets with different names |
| ComponentProperties.OperatorEnvNames | pkg/virt-operator/resource/generate/components/deployments.go:495-557 | The operator env's entries carry, in order, the image, WATCH_NAMESPACE, version, four shasum and gs names |
| ComponentProperties.OperatorEnvLookup | pkg/virt-operator/resource/generate/components/deployments.go:525-557 | With distinct names, the operator always reads its image and WATCH_NAMESPACE. It reads the version and each shasum iff all five are given, and gs iff those five and gs are given |

## Left out

- Error results. newPodTemplateSpec always returns a nil error, so the
  propagation in newBaseDeployment and the New*Deployment functions can
  never happen. The builders return the object directly. The property that
  an error becomes a nil deployment is therefore not modelled.
- `operatorutil.NewEnvVarMap` is not part of this model. The builders take
  its result as the input `env`.
- Constants from other packages are parameters. These are the `virtv1`
  label keys, the Prometheus label key, the certificate secret names, the
  `rbac` service accounts, the operator env names and the subresource
  version.
- TypeMeta (API version and kind), the TCP protocol constant and the HTTPS
  scheme are kept as plain strings or left out.
- Probes keep only the scheme, port, path and the four numbers the source
  sets.
- Resource quantities are kept as their literal text. `resource.MustParse`
  is not modelled.
- The security context keeps only RunAsNonRoot.
- The deployment strategy keeps only whether RollingUpdate is set
  explicitly.
- `int32` replicas and ports are unbounded integers. Every value the
  source uses is a small constant.
- `DeepCopy` of the selector is modelled as an equal value. Copying the pod
  template into the deployment (line 224) is modelled by sharing the
  object, because the source never uses the original afterwards.
- A nil slice or map and an empty one are both the empty sequence or map.
- Go pointer aliasing is not modelled: the `container` pointer and the
  pointer to the pod spec. Each update is a field update of the one
  PodSpec object.
- Templates starting with `{{if` are never evaluated. The source only tests
  that prefix.
- Kubernetes API validation and the semantics of the scheduler beyond label
  selection are not modelled.
