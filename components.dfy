/** The generators of pkg/virt-operator/resource/generate/components/deployments.go:
    image references, the pod templates and deployments of virt-api,
    virt-controller and virt-operator, the two services and the pod
    disruption budget derived from a deployment. */
module Components {
  import opened Wrappers
  import opened Kube

  const VirtApiName := "virt-api"
  const VirtControllerName := "virt-controller"
  const VirtOperatorName := "virt-operator"
  const VirtLauncherName := "virt-launcher"

  const KubevirtLabelKey := "kubevirt.io"
  const KubernetesHostnameTopologyKey := "kubernetes.io/hostname"

  /** Versions starting with this are image digests. */
  const DigestPrefix := "sha256:"
  /** Versions starting with this are templates that place their own separator. */
  const TemplatePrefix := "{{if"

  const CriticalPriorityClass := "kubevirt-cluster-critical"
  const CriticalPodAnnotations: map<string, string> := map["scheduler.alpha.kubernetes.io/critical-pod" := ""]
  const CriticalAddonsToleration: seq<Toleration> := [Toleration("CriticalAddonsOnly", "Exists")]

  const WatchNamespaceEnvName := "WATCH_NAMESPACE"
  const OperatorServiceAccount := "kubevirt-operator"
  const ProfileVolume := Volume("profile-data", EmptyDir)
  const ProfileMount := VolumeMount("profile-data", false, "/profile-data")

  // ---------------------------------------------------------------------
  // Names defined outside deployments.go

  /** The label keys of the KubeVirt API package and the Prometheus label key. */
  datatype LabelKeys = LabelKeys(app: string, appName: string, appVersion: string, appPartOf: string, prometheus: string)
  {
    /** The real keys are five different strings. */
    predicate Distinct()
    {
      && app != appName && app != appVersion && app != appPartOf && app != prometheus
      && appName != appVersion && appName != appPartOf && appName != prometheus
      && appVersion != appPartOf && appVersion != prometheus
      && appPartOf != prometheus
    }
  }

  /** The names of the environment variables the operator reads. */
  datatype EnvNames = EnvNames(
    operatorImage: string,
    kubeVirtVersion: string,
    apiSha: string,
    controllerSha: string,
    handlerSha: string,
    launcherSha: string,
    gsSha: string)
  {
    /** The names in the order the operator's env lists them. */
    function InEnvOrder(): (names: seq<string>)
      ensures |names| == 8
    {
      [operatorImage, WatchNamespaceEnvName, kubeVirtVersion, apiSha, controllerSha, handlerSha, launcherSha, gsSha]
    }

    /** The real names are different from each other and from WATCH_NAMESPACE. */
    predicate Distinct()
    {
      forall i, j :: 0 <= i < j < |InEnvOrder()| ==> InEnvOrder()[i] != InEnvOrder()[j]
    }
  }

  /** Every constant the generators take from other packages. */
  datatype Externals = Externals(
    labels: LabelKeys,
    envNames: EnvNames,
    apiCertSecret: string,
    handlerCertSecret: string,
    controllerCertSecret: string,
    operatorCertSecret: string,
    apiServiceAccount: string,
    controllerServiceAccount: string,
    subresourceVersion: string)

  // ---------------------------------------------------------------------
  // Image references

  predicate HasPrefix(s: string, prefix: string)
  {
    |prefix| <= |s| && s[..|prefix|] == prefix
  }

  predicate HasSuffix(s: string, suffix: string)
  {
    |suffix| <= |s| && s[|s| - |suffix|..] == suffix
  }

  /** A version is a digest, a template or a tag; digests are separated from
      the image name by '@', tags by ':', and templates bring their own. */
  function AddVersionSeparatorPrefix(version: string): string
  {
    if HasPrefix(version, DigestPrefix) then "@" + version
    else if !HasPrefix(version, TemplatePrefix) then ":" + version
    else version
  }

  /** No version is both a digest and a template: they differ in their first character. */
  lemma DigestIsNotTemplate(version: string)
    requires HasPrefix(version, DigestPrefix)
    ensures !HasPrefix(version, TemplatePrefix)
  {
    assert version[0] == version[..|DigestPrefix|][0] == 's';
  }

  /** The separator tells the kind of version: '@' exactly for digests, ':'
      exactly for tags, and nothing is added exactly to templates. In every
      case the version itself ends the result. */
  lemma VersionSeparatorKinds(version: string)
    ensures var r := AddVersionSeparatorPrefix(version);
      && HasSuffix(r, version)
      && (HasPrefix(r, "@") <==> HasPrefix(version, DigestPrefix))
      && (HasPrefix(r, ":") <==> !HasPrefix(version, DigestPrefix) && !HasPrefix(version, TemplatePrefix))
      && (r == version <==> HasPrefix(version, TemplatePrefix))
  {
    var r := AddVersionSeparatorPrefix(version);
    if HasPrefix(version, DigestPrefix) {
      DigestIsNotTemplate(version);
      assert r[..1] == "@" && r[|r| - |version|..] == version;
    } else if !HasPrefix(version, TemplatePrefix) {
      assert r[..1] == ":" && r[|r| - |version|..] == version;
    } else {
      assert r[0] == version[..|TemplatePrefix|][0] == '{';
    }
  }

  /** Drops the separator AddVersionSeparatorPrefix put in front of a version. */
  function StripVersionSeparator(separated: string): string
  {
    if separated != [] && (separated[0] == '@' || separated[0] == ':') then separated[1..] else separated
  }

  /** The separator can be taken off again: no two versions share a separated form. */
  lemma VersionSeparatorRoundTrip(version: string)
    ensures StripVersionSeparator(AddVersionSeparatorPrefix(version)) == version
  {
    var r := AddVersionSeparatorPrefix(version);
    if HasPrefix(version, DigestPrefix) {
      assert r == "@" + version && r[1..] == version;
    } else if !HasPrefix(version, TemplatePrefix) {
      assert r == ":" + version && r[1..] == version;
    } else {
      assert r[0] == r[..|TemplatePrefix|][0] == '{';
    }
  }

  /** The image of a component: `repository/imageName` followed by the
      separated version, where the image name is the image prefix followed by
      the component's name. */
  function ImageReference(repository: string, imageName: string, version: string): string
  {
    repository + "/" + imageName + AddVersionSeparatorPrefix(version)
  }

  /** An image reference starts with `repository/imageName`, and the version
      can be read back from what follows. */
  lemma ImageReferenceParts(repository: string, imageName: string, version: string)
    ensures var image := ImageReference(repository, imageName, version);
      var head := repository + "/" + imageName;
      HasPrefix(image, head) && StripVersionSeparator(image[|head|..]) == version
  {
    var head := repository + "/" + imageName;
    var image := ImageReference(repository, imageName, version);
    assert image[..|head|] == head && image[|head|..] == AddVersionSeparatorPrefix(version);
    VersionSeparatorRoundTrip(version);
  }

  // ---------------------------------------------------------------------
  // Labels

  /** `base` with the product labels added: the version label when
      `productVersion` is not empty, then the part-of label when
      `productName` is not empty. */
  function AddProductLabels(k: LabelKeys, base: map<string, string>, productName: string, productVersion: string): map<string, string>
  {
    var withVersion := if productVersion != "" then base[k.appVersion := productVersion] else base;
    if productName != "" then withVersion[k.appPartOf := productName] else withVersion
  }

  /** The labels of a pod template built by NewPodTemplateSpec. */
  function PodTemplateLabels(k: LabelKeys, podName: string, productName: string, productVersion: string): map<string, string>
  {
    AddProductLabels(k, map[k.app := podName, k.prometheus := ""], productName, productVersion)
  }

  /** The labels of a deployment built by NewBaseDeployment. */
  function DeploymentLabels(k: LabelKeys, name: string, productName: string, productVersion: string): map<string, string>
  {
    AddProductLabels(k, map[k.app := name, k.appName := name], productName, productVersion)
  }

  /** Adding the product labels keeps every other label of `base` and adds
      exactly the labels whose values are given. */
  lemma AddProductLabelsSpec(k: LabelKeys, base: map<string, string>, productName: string, productVersion: string)
    requires k.Distinct()
    ensures var r := AddProductLabels(k, base, productName, productVersion);
      && r.Keys == base.Keys + (if productVersion != "" then {k.appVersion} else {}) + (if productName != "" then {k.appPartOf} else {})
      && (forall key :: key in base && key != k.appVersion && key != k.appPartOf ==> r[key] == base[key])
      && (productVersion != "" ==> r[k.appVersion] == productVersion)
      && (productName != "" ==> r[k.appPartOf] == productName)
  {
  }

  /** A pod template carries its app label and the Prometheus label, and the
      product labels exactly when they are given. */
  lemma PodTemplateLabelsSpec(k: LabelKeys, podName: string, productName: string, productVersion: string)
    requires k.Distinct()
    ensures var r := PodTemplateLabels(k, podName, productName, productVersion);
      && k.app in r && r[k.app] == podName
      && k.prometheus in r && r[k.prometheus] == ""
      && (k.appVersion in r <==> productVersion != "")
      && (k.appVersion in r ==> r[k.appVersion] == productVersion)
      && (k.appPartOf in r <==> productName != "")
      && (k.appPartOf in r ==> r[k.appPartOf] == productName)
      && r.Keys <= {k.app, k.prometheus, k.appVersion, k.appPartOf}
  {
    AddProductLabelsSpec(k, map[k.app := podName, k.prometheus := ""], productName, productVersion);
  }

  /** A base deployment carries its app and app-name labels, and the product
      labels exactly when they are given. */
  lemma DeploymentLabelsSpec(k: LabelKeys, name: string, productName: string, productVersion: string)
    requires k.Distinct()
    ensures var r := DeploymentLabels(k, name, productName, productVersion);
      && k.app in r && r[k.app] == name
      && k.appName in r && r[k.appName] == name
      && (k.appVersion in r <==> productVersion != "")
      && (k.appVersion in r ==> r[k.appVersion] == productVersion)
      && (k.appPartOf in r <==> productName != "")
      && (k.appPartOf in r ==> r[k.appPartOf] == productName)
      && r.Keys <= {k.app, k.appName, k.appVersion, k.appPartOf}
  {
    AddProductLabelsSpec(k, map[k.app := name, k.appName := name], productName, productVersion);
  }

  // ---------------------------------------------------------------------
  // Services

  /** The service Prometheus scrapes: it selects every pod carrying the
      Prometheus label with an empty value, on port 443 to "metrics". */
  function NewPrometheusService(k: LabelKeys, namespace: string): (s: Service)
    ensures s.namespace == namespace && s.name == "kubevirt-prometheus-metrics"
    ensures forall labels :: MatchLabels(s.selector, labels) <==> k.prometheus in labels && labels[k.prometheus] == ""
    ensures s.labels == map[k.app := "", k.prometheus := ""]
    ensures s.ports == [ServicePort("metrics", 443, Str("metrics"), "TCP")] && s.serviceType == "ClusterIP"
  {
    Service(namespace, "kubevirt-prometheus-metrics",
            map[k.app := "", k.prometheus := ""],
            map[k.prometheus := ""],
            [ServicePort("metrics", 443, Str("metrics"), "TCP")],
            "ClusterIP")
  }

  /** The virt-api service: it selects the pods whose app label is virt-api
      and forwards port 443 to 8443. */
  function NewApiServerService(k: LabelKeys, namespace: string): (s: Service)
    ensures s.namespace == namespace && s.name == VirtApiName
    ensures forall labels :: MatchLabels(s.selector, labels) <==> k.app in labels && labels[k.app] == VirtApiName
    ensures s.labels == s.selector
    ensures s.ports == [ServicePort("", 443, Int(8443), "TCP")] && s.serviceType == "ClusterIP"
  {
    Service(namespace, VirtApiName,
            map[k.app := VirtApiName],
            map[k.app := VirtApiName],
            [ServicePort("", 443, Int(8443), "TCP")],
            "ClusterIP")
  }

  // ---------------------------------------------------------------------
  // Pod templates and deployments

  /** A preferred anti-affinity of weight 1 against pods satisfying one
      requirement, within each topology domain `topologyKey`. */
  function NewPodAntiAffinity(key: string, topologyKey: string, operator: LabelSelectorOperator, values: seq<string>): Affinity
  {
    PodAntiAffinity([WeightedTerm(1, [Requirement(key, operator, values)], topologyKey)])
  }

  /** The anti-affinity has one term, of weight 1, over the given topology,
      and that term selects exactly the pods satisfying the requirement. */
  lemma PodAntiAffinitySelects(key: string, topologyKey: string, operator: LabelSelectorOperator, values: seq<string>)
    ensures var a := NewPodAntiAffinity(key, topologyKey, operator, values);
      && |a.preferred| == 1 && a.preferred[0].weight == 1 && a.preferred[0].topologyKey == topologyKey
      && forall labels :: TermSelects(a.preferred[0], labels) <==> RequirementMatches(Requirement(key, operator, values), labels)
  {
    var a := NewPodAntiAffinity(key, topologyKey, operator, values);
    forall labels
      ensures TermSelects(a.preferred[0], labels) <==> RequirementMatches(Requirement(key, operator, values), labels)
    {
      assert a.preferred[0].matchExpressions[0] == Requirement(key, operator, values);
    }
  }

  /** The env a pod template's container gets: the given list, unless it is
      missing or empty. */
  function TemplateEnv(envVars: Option<seq<EnvVar>>): (env: seq<EnvVar>)
    ensures env != [] <==> envVars.Some? && envVars.value != []
    ensures env != [] ==> env == envVars.value
  {
    if envVars.Some? && |envVars.value| != 0 then envVars.value else []
  }

  /** The state NewPodTemplateSpec leaves `t` in. */
  ghost predicate AsBuiltTemplate(t: PodTemplate, k: LabelKeys, podName: string, image: string,
                                  productName: string, productVersion: string, pullPolicy: string,
                                  podAffinity: Affinity, envVars: Option<seq<EnvVar>>)
    reads t, t.spec
  {
    && t.name == podName
    && t.labels == PodTemplateLabels(k, podName, productName, productVersion)
    && t.annotations == CriticalPodAnnotations
    && t.spec.priorityClassName == CriticalPriorityClass
    && t.spec.affinity == podAffinity
    && t.spec.tolerations == CriticalAddonsToleration
    && t.spec.serviceAccountName == ""
    && t.spec.runAsNonRoot == None
    && t.spec.volumes == []
    && t.spec.containers == [Container(podName, image, pullPolicy, [], [], TemplateEnv(envVars), [], None, None, None)]
  }

  /** A critical pod template with one container running `imageName` at
      `version`; product labels and env are added only when given. The error
      result of the source is always nil and is not modelled. */
  method NewPodTemplateSpec(k: LabelKeys, podName: string, imageName: string, repository: string, version: string,
                            productName: string, productVersion: string, pullPolicy: string,
                            podAffinity: Affinity, envVars: Option<seq<EnvVar>>) returns (t: PodTemplate)
    ensures fresh(t) && fresh(t.spec)
    ensures AsBuiltTemplate(t, k, podName, ImageReference(repository, imageName, version),
                            productName, productVersion, pullPolicy, podAffinity, envVars)
  {
    var separated := AddVersionSeparatorPrefix(version);
    var container := Container(podName, repository + "/" + imageName + separated, pullPolicy,
                               [], [], [], [], None, None, None);
    var spec := new PodSpec(CriticalPriorityClass, podAffinity, CriticalAddonsToleration, "", None, [container]);
    t := new PodTemplate(podName, map[k.app := podName, k.prometheus := ""], CriticalPodAnnotations, spec);
    if productVersion != "" {
      t.labels := t.labels[k.appVersion := productVersion];
    }
    if productName != "" {
      t.labels := t.labels[k.appPartOf := productName];
    }
    if envVars.Some? && |envVars.value| != 0 {
      spec.containers := spec.containers[0 := spec.containers[0].(env := envVars.value)];
    }
  }

  /** Appends an empty-dir volume "profile-data" to the pod and mounts it at
      /profile-data in the first container; nothing else changes. */
  method AttachProfileVolume(spec: PodSpec)
    requires |spec.containers| > 0
    modifies spec`volumes, spec`containers
    ensures spec.volumes == old(spec.volumes) + [ProfileVolume]
    ensures spec.containers == old(spec.containers)[0 := WithMount(old(spec.containers[0]), ProfileMount)]
  {
    spec.volumes := spec.volumes + [ProfileVolume];
    spec.containers := spec.containers[0 := WithMount(spec.containers[0], ProfileMount)];
  }

  /** Appends an optional secret volume named after the secret to the pod and
      mounts it read-only at `mountPath` in the first container; nothing else
      changes. */
  method AttachCertificateSecret(spec: PodSpec, secretName: string, mountPath: string)
    requires |spec.containers| > 0
    modifies spec`volumes, spec`containers
    ensures spec.volumes == old(spec.volumes) + [Volume(secretName, Secret(secretName, true))]
    ensures spec.containers == old(spec.containers)[0 := WithMount(old(spec.containers[0]), VolumeMount(secretName, true, mountPath))]
  {
    var secretVolume := Volume(secretName, Secret(secretName, true));
    var secretVolumeMount := VolumeMount(secretName, true, mountPath);
    spec.volumes := spec.volumes + [secretVolume];
    spec.containers := spec.containers[0 := WithMount(spec.containers[0], secretVolumeMount)];
  }

  /** A two-replica deployment selecting its pods by the kubevirt.io label,
      around the pod template NewPodTemplateSpec builds. */
  method NewBaseDeployment(k: LabelKeys, deploymentName: string, imageName: string, namespace: string,
                           repository: string, version: string, productName: string, productVersion: string,
                           pullPolicy: string, podAffinity: Affinity, envVars: Option<seq<EnvVar>>) returns (d: Deployment)
    ensures fresh(d) && fresh(d.template) && fresh(d.template.spec)
    ensures d.namespace == namespace && d.name == deploymentName
    ensures d.labels == DeploymentLabels(k, deploymentName, productName, productVersion)
    ensures d.replicas == 2 && d.selector == map[KubevirtLabelKey := deploymentName] && !d.rollingUpdate
    ensures AsBuiltTemplate(d.template, k, deploymentName, ImageReference(repository, imageName, version),
                            productName, productVersion, pullPolicy, podAffinity, envVars)
  {
    var template := NewPodTemplateSpec(k, deploymentName, imageName, repository, version,
                                       productName, productVersion, pullPolicy, podAffinity, envVars);
    d := new Deployment(namespace, deploymentName, map[k.app := deploymentName, k.appName := deploymentName],
                        2, map[KubevirtLabelKey := deploymentName], false, template);
    if productVersion != "" {
      d.labels := d.labels[k.appVersion := productVersion];
    }
    if productName != "" {
      d.labels := d.labels[k.appPartOf := productName];
    }
  }

  /** The virt-api deployment. `env` is what the environment-map helper of
      the operator makes of the extra environment. */
  method NewApiServerDeployment(ext: Externals, namespace: string, repository: string, imagePrefix: string,
                                version: string, productName: string, productVersion: string,
                                pullPolicy: string, verbosity: string, env: Option<seq<EnvVar>>) returns (d: Deployment)
    ensures fresh(d) && fresh(d.template) && fresh(d.template.spec)
    ensures d.namespace == namespace && d.name == VirtApiName
    ensures d.labels == DeploymentLabels(ext.labels, VirtApiName, productName, productVersion)
    ensures d.replicas == 2 && d.selector == map[KubevirtLabelKey := VirtApiName] && !d.rollingUpdate
    ensures d.template.name == VirtApiName
    ensures d.template.labels == PodTemplateLabels(ext.labels, VirtApiName, productName, productVersion)
    ensures d.template.annotations == CriticalPodAnnotations
    ensures d.template.spec.priorityClassName == CriticalPriorityClass
    ensures d.template.spec.affinity == NewPodAntiAffinity(KubevirtLabelKey, KubernetesHostnameTopologyKey, In, [VirtApiName])
    ensures d.template.spec.tolerations == CriticalAddonsToleration
    ensures d.template.spec.serviceAccountName == ext.apiServiceAccount
    ensures d.template.spec.runAsNonRoot == Some(true)
    ensures d.template.spec.volumes == [Volume(ext.apiCertSecret, Secret(ext.apiCertSecret, true)),
                         Volume(ext.handlerCertSecret, Secret(ext.handlerCertSecret, true)),
                         ProfileVolume]
    ensures |d.template.spec.containers| == 1
    ensures d.template.spec.containers[0].name == VirtApiName
    ensures d.template.spec.containers[0].image == ImageReference(repository, imagePrefix + VirtApiName, version)
    ensures d.template.spec.containers[0].pullPolicy == pullPolicy
    ensures d.template.spec.containers[0].command == [VirtApiName, "--port", "8443", "--console-server-port", "8186", "--subresources-only", "-v", verbosity]
    ensures d.template.spec.containers[0].ports == [ContainerPort(VirtApiName, "TCP", 8443), ContainerPort("metrics", "TCP", 8443)]
    ensures d.template.spec.containers[0].env == TemplateEnv(env)
    ensures d.template.spec.containers[0].volumeMounts == [VolumeMount(ext.apiCertSecret, true, "/etc/virt-api/certificates"),
                            VolumeMount(ext.handlerCertSecret, true, "/etc/virt-handler/clientcertificates"),
                            ProfileMount]
    ensures d.template.spec.containers[0].readinessProbe == Some(Probe("HTTPS", 8443, "/apis/subresources.kubevirt.io/" + ext.subresourceVersion + "/healthz", 15, 10, 0, 0))
    ensures d.template.spec.containers[0].livenessProbe == None
    ensures d.template.spec.containers[0].resources == Some(ResourceRequests("5m", "150Mi"))
  {
    var podAntiAffinity := NewPodAntiAffinity(KubevirtLabelKey, KubernetesHostnameTopologyKey, In, [VirtApiName]);
    var imageName := imagePrefix + VirtApiName;
    d := NewBaseDeployment(ext.labels, VirtApiName, imageName, namespace, repository, version,
                           productName, productVersion, pullPolicy, podAntiAffinity, env);

    var pod := d.template.spec;
    AttachCertificateSecret(pod, ext.apiCertSecret, "/etc/virt-api/certificates");
    AttachCertificateSecret(pod, ext.handlerCertSecret, "/etc/virt-handler/clientcertificates");
    AttachProfileVolume(pod);

    pod.serviceAccountName := ext.apiServiceAccount;
    pod.runAsNonRoot := Some(true);

    var container := pod.containers[0].(
      command := [VirtApiName, "--port", "8443", "--console-server-port", "8186", "--subresources-only", "-v", verbosity],
      ports := [ContainerPort(VirtApiName, "TCP", 8443), ContainerPort("metrics", "TCP", 8443)],
      readinessProbe := Some(Probe("HTTPS", 8443, "/apis/subresources.kubevirt.io/" + ext.subresourceVersion + "/healthz", 15, 10, 0, 0)),
      resources := Some(ResourceRequests("5m", "150Mi")));
    pod.containers := pod.containers[0 := container];
  }

  /** The virt-controller deployment; its command names the virt-launcher
      image built from the same repository and prefix. */
  method NewControllerDeployment(ext: Externals, namespace: string, repository: string, imagePrefix: string,
                                 controllerVersion: string, launcherVersion: string, productName: string,
                                 productVersion: string, pullPolicy: string, verbosity: string,
                                 env: Option<seq<EnvVar>>) returns (d: Deployment)
    ensures fresh(d) && fresh(d.template) && fresh(d.template.spec)
    ensures d.namespace == namespace && d.name == VirtControllerName
    ensures d.labels == DeploymentLabels(ext.labels, VirtControllerName, productName, productVersion)
    ensures d.replicas == 2 && d.selector == map[KubevirtLabelKey := VirtControllerName] && !d.rollingUpdate
    ensures d.template.name == VirtControllerName
    ensures d.template.labels == PodTemplateLabels(ext.labels, VirtControllerName, productName, productVersion)
    ensures d.template.annotations == CriticalPodAnnotations
    ensures d.template.spec.priorityClassName == CriticalPriorityClass
    ensures d.template.spec.affinity == NewPodAntiAffinity(KubevirtLabelKey, KubernetesHostnameTopologyKey, In, [VirtControllerName])
    ensures d.template.spec.tolerations == CriticalAddonsToleration
    ensures d.template.spec.serviceAccountName == ext.controllerServiceAccount
    ensures d.template.spec.runAsNonRoot == Some(true)
    ensures d.template.spec.volumes == [Volume(ext.controllerCertSecret, Secret(ext.controllerCertSecret, true)), ProfileVolume]
    ensures |d.template.spec.containers| == 1
    ensures d.template.spec.containers[0].name == VirtControllerName
    ensures d.template.spec.containers[0].image == ImageReference(repository, imagePrefix + VirtControllerName, controllerVersion)
    ensures d.template.spec.containers[0].pullPolicy == pullPolicy
    ensures d.template.spec.containers[0].command == [VirtControllerName, "--launcher-image", ImageReference(repository, imagePrefix + VirtLauncherName, launcherVersion),
                       "--port", "8443", "-v", verbosity]
    ensures d.template.spec.containers[0].ports == [ContainerPort("metrics", "TCP", 8443)]
    ensures d.template.spec.containers[0].env == TemplateEnv(env)
    ensures d.template.spec.containers[0].volumeMounts == [VolumeMount(ext.controllerCertSecret, true, "/etc/virt-controller/certificates"), ProfileMount]
    ensures d.template.spec.containers[0].livenessProbe == Some(Probe("HTTPS", 8443, "/healthz", 15, 0, 10, 8))
    ensures d.template.spec.containers[0].readinessProbe == Some(Probe("HTTPS", 8443, "/leader", 15, 0, 10, 0))
    ensures d.template.spec.containers[0].resources == Some(ResourceRequests("10m", "150Mi"))
  {
    var podAntiAffinity := NewPodAntiAffinity(KubevirtLabelKey, KubernetesHostnameTopologyKey, In, [VirtControllerName]);
    var imageName := imagePrefix + VirtControllerName;
    d := NewBaseDeployment(ext.labels, VirtControllerName, imageName, namespace, repository, controllerVersion,
                           productName, productVersion, pullPolicy, podAntiAffinity, env);

    var pod := d.template.spec;
    pod.serviceAccountName := ext.controllerServiceAccount;
    pod.runAsNonRoot := Some(true);

    var separatedLauncherVersion := AddVersionSeparatorPrefix(launcherVersion);
    var container := pod.containers[0].(
      command := [VirtControllerName, "--launcher-image",
                  repository + "/" + (imagePrefix + VirtLauncherName) + separatedLauncherVersion,
                  "--port", "8443", "-v", verbosity],
      ports := [ContainerPort("metrics", "TCP", 8443)],
      livenessProbe := Some(Probe("HTTPS", 8443, "/healthz", 15, 0, 10, 8)),
      readinessProbe := Some(Probe("HTTPS", 8443, "/leader", 15, 0, 10, 0)));
    pod.containers := pod.containers[0 := container];

    AttachCertificateSecret(pod, ext.controllerCertSecret, "/etc/virt-controller/certificates");
    AttachProfileVolume(pod);

    pod.containers := pod.containers[0 := pod.containers[0].(resources := Some(ResourceRequests("10m", "150Mi")))];
  }

  /** Whether all five inputs of the version and shasum entries are given. */
  predicate AllShaSumsGiven(kubeVirtVersion: string, apiSha: string, controllerSha: string, handlerSha: string, launcherSha: string)
  {
    apiSha != "" && controllerSha != "" && handlerSha != "" && launcherSha != "" && kubeVirtVersion != ""
  }

  /** The operator's env: its own image and the watched namespace, then the
      version and the four shasums when all five are given, then the gs
      shasum when that is given too. */
  function OperatorEnv(n: EnvNames, image: string, kubeVirtVersion: string, apiSha: string, controllerSha: string,
                       handlerSha: string, launcherSha: string, gsSha: string): seq<EnvVar>
  {
    var base := [EnvVar(n.operatorImage, Literal(image)),
                 EnvVar(WatchNamespaceEnvName, FieldRef("metadata.annotations['olm.targetNamespaces']"))];
    if !AllShaSumsGiven(kubeVirtVersion, apiSha, controllerSha, handlerSha, launcherSha) then base
    else
      var shaSums := [EnvVar(n.kubeVirtVersion, Literal(kubeVirtVersion)),
                      EnvVar(n.apiSha, Literal(apiSha)),
                      EnvVar(n.controllerSha, Literal(controllerSha)),
                      EnvVar(n.handlerSha, Literal(handlerSha)),
                      EnvVar(n.launcherSha, Literal(launcherSha))];
      base + shaSums + (if gsSha != "" then [EnvVar(n.gsSha, Literal(gsSha))] else [])
  }

  /** The operator's env starts with its image and the watched namespace; the
      five version and shasum entries follow exactly when all five are given,
      and the gs entry ends it exactly when it is given too; so it has 2, 7 or
      8 entries. */
  lemma OperatorEnvShape(n: EnvNames, image: string, kubeVirtVersion: string, apiSha: string, controllerSha: string,
                         handlerSha: string, launcherSha: string, gsSha: string)
    ensures var env := OperatorEnv(n, image, kubeVirtVersion, apiSha, controllerSha, handlerSha, launcherSha, gsSha);
      var all := AllShaSumsGiven(kubeVirtVersion, apiSha, controllerSha, handlerSha, launcherSha);
      && (|env| == 2 || |env| == 7 || |env| == 8)
      && env[..2] == [EnvVar(n.operatorImage, Literal(image)),
                      EnvVar(WatchNamespaceEnvName, FieldRef("metadata.annotations['olm.targetNamespaces']"))]
      && (|env| > 2 <==> all)
      && (|env| == 8 <==> all && gsSha != "")
      && (|env| > 2 ==> env[2..7] == [EnvVar(n.kubeVirtVersion, Literal(kubeVirtVersion)),
                                       EnvVar(n.apiSha, Literal(apiSha)),
                                       EnvVar(n.controllerSha, Literal(controllerSha)),
                                       EnvVar(n.handlerSha, Literal(handlerSha)),
                                       EnvVar(n.launcherSha, Literal(launcherSha))])
      && (|env| == 8 ==> env[7] == EnvVar(n.gsSha, Literal(gsSha)))
  {
  }

  /** The virt-operator deployment, used for manifest generation. */
  method NewOperatorDeployment(ext: Externals, namespace: string, repository: string, imagePrefix: string,
                               version: string, pullPolicy: string, verbosity: string,
                               kubeVirtVersionEnv: string, virtApiShaEnv: string, virtControllerShaEnv: string,
                               virtHandlerShaEnv: string, virtLauncherShaEnv: string, gsShaEnv: string) returns (d: Deployment)
    ensures fresh(d) && fresh(d.template) && fresh(d.template.spec)
    ensures d.namespace == namespace && d.name == VirtOperatorName
    ensures d.labels == map[ext.labels.app := VirtOperatorName]
    ensures d.replicas == 2 && d.selector == map[ext.labels.app := VirtOperatorName] && d.rollingUpdate
    ensures d.template.name == VirtOperatorName
    ensures d.template.labels == PodTemplateLabels(ext.labels, VirtOperatorName, "", "")
    ensures d.template.annotations == CriticalPodAnnotations
    ensures d.template.spec.priorityClassName == CriticalPriorityClass
    ensures d.template.spec.affinity == NewPodAntiAffinity(KubevirtLabelKey, KubernetesHostnameTopologyKey, In, [VirtOperatorName])
    ensures d.template.spec.tolerations == CriticalAddonsToleration
    ensures d.template.spec.serviceAccountName == OperatorServiceAccount
    ensures d.template.spec.runAsNonRoot == Some(true)
    ensures d.template.spec.volumes == [Volume(ext.operatorCertSecret, Secret(ext.operatorCertSecret, true)), ProfileVolume]
    ensures |d.template.spec.containers| == 1
    ensures d.template.spec.containers[0].name == VirtOperatorName
    ensures d.template.spec.containers[0].image == ImageReference(repository, imagePrefix + VirtOperatorName, version)
    ensures d.template.spec.containers[0].pullPolicy == pullPolicy
    ensures d.template.spec.containers[0].command == [VirtOperatorName, "--port", "8443", "-v", verbosity]
    ensures d.template.spec.containers[0].ports == [ContainerPort("metrics", "TCP", 8443), ContainerPort("webhooks", "TCP", 8444)]
    ensures d.template.spec.containers[0].env == OperatorEnv(ext.envNames, d.template.spec.containers[0].image, kubeVirtVersionEnv, virtApiShaEnv, virtControllerShaEnv,
                              virtHandlerShaEnv, virtLauncherShaEnv, gsShaEnv)
    ensures d.template.spec.containers[0].volumeMounts == [VolumeMount(ext.operatorCertSecret, true, "/etc/virt-operator/certificates"), ProfileMount]
    ensures d.template.spec.containers[0].readinessProbe == Some(Probe("HTTPS", 8443, "/metrics", 5, 0, 10, 0))
    ensures d.template.spec.containers[0].livenessProbe == None
    ensures d.template.spec.containers[0].resources == Some(ResourceRequests("10m", "150Mi"))
  {
    var k := ext.labels;
    var n := ext.envNames;
    var podAntiAffinity := NewPodAntiAffinity(KubevirtLabelKey, KubernetesHostnameTopologyKey, In, [VirtOperatorName]);
    var separated := AddVersionSeparatorPrefix(version);
    var image := repository + "/" + (imagePrefix + VirtOperatorName) + separated;

    var container := Container(
      VirtOperatorName, image, pullPolicy,
      [VirtOperatorName, "--port", "8443", "-v", verbosity],
      [ContainerPort("metrics", "TCP", 8443), ContainerPort("webhooks", "TCP", 8444)],
      [EnvVar(n.operatorImage, Literal(image)),
       EnvVar(WatchNamespaceEnvName, FieldRef("metadata.annotations['olm.targetNamespaces']"))],
      [],
      Some(Probe("HTTPS", 8443, "/metrics", 5, 0, 10, 0)),
      None,
      Some(ResourceRequests("10m", "150Mi")));
    var spec := new PodSpec(CriticalPriorityClass, podAntiAffinity, CriticalAddonsToleration,
                            OperatorServiceAccount, Some(true), [container]);
    var template := new PodTemplate(VirtOperatorName, map[k.app := VirtOperatorName, k.prometheus := ""],
                                    CriticalPodAnnotations, spec);
    d := new Deployment(namespace, VirtOperatorName, map[k.app := VirtOperatorName], 2,
                        map[k.app := VirtOperatorName], true, template);

    if virtApiShaEnv != "" && virtControllerShaEnv != "" && virtHandlerShaEnv != "" && virtLauncherShaEnv != "" && kubeVirtVersionEnv != "" {
      var shaSums := [EnvVar(n.kubeVirtVersion, Literal(kubeVirtVersionEnv)),
                      EnvVar(n.apiSha, Literal(virtApiShaEnv)),
                      EnvVar(n.controllerSha, Literal(virtControllerShaEnv)),
                      EnvVar(n.handlerSha, Literal(virtHandlerShaEnv)),
                      EnvVar(n.launcherSha, Literal(virtLauncherShaEnv))];
      if gsShaEnv != "" {
        shaSums := shaSums + [EnvVar(n.gsSha, Literal(gsShaEnv))];
      }
      spec.containers := spec.containers[0 := spec.containers[0].(env := spec.containers[0].env + shaSums)];
    }

    AttachCertificateSecret(spec, ext.operatorCertSecret, "/etc/virt-operator/certificates");
    AttachProfileVolume(spec);
  }

  /** The budget keeping one pod of `d` available: named `<name>-pdb` in the
      deployment's namespace, selecting exactly the deployment's pods. */
  function NewPodDisruptionBudgetForDeployment(k: LabelKeys, d: Deployment): (pdb: PodDisruptionBudget)
    reads d
    ensures HasPrefix(pdb.name, d.name) && HasSuffix(pdb.name, "-pdb") && |pdb.name| == |d.name| + 4
    ensures pdb.namespace == d.namespace
    ensures pdb.labels == map[k.app := pdb.name]
    ensures pdb.minAvailable == Int(1)
    ensures pdb.selector == d.selector
  {
    var pdbName := d.name + "-pdb";
    assert pdbName[..|d.name|] == d.name && pdbName[|pdbName| - 4..] == "-pdb";
    PodDisruptionBudget(d.namespace, pdbName, map[k.app := pdbName], Int(1), d.selector)
  }
}
