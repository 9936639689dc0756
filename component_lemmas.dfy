/** Properties that hold across the generators: which image each component
    runs, which pods each selector, anti-affinity and service picks, what the
    disruption budget covers, and what the operator reads from its env. The
    selector lemmas assume that the KubeVirt app label key is "kubevirt.io",
    the literal the base deployments select on. */
module ComponentProperties {
  import opened Wrappers
  import opened Kube
  import opened Components

  // ---------------------------------------------------------------------
  // Images

  /** Two versions give the same image of a component only if they are equal. */
  lemma ImageReferenceVersionInjective(repository: string, imageName: string, v1: string, v2: string)
    requires ImageReference(repository, imageName, v1) == ImageReference(repository, imageName, v2)
    ensures v1 == v2
  {
    ImageReferenceParts(repository, imageName, v1);
    ImageReferenceParts(repository, imageName, v2);
  }

  /** The components whose images the generators name. */
  const ImageComponents: set<string> := {VirtApiName, VirtControllerName, VirtOperatorName, VirtLauncherName}

  /** The character of an image at a position inside the component's name. */
  lemma ImageCharacter(repository: string, imagePrefix: string, component: string, version: string, i: int)
    requires 0 <= i < |component|
    ensures var image := ImageReference(repository, imagePrefix + component, version);
      |repository| + 1 + |imagePrefix| + i < |image|
      && image[|repository| + 1 + |imagePrefix| + i] == component[i]
  {
    var image := ImageReference(repository, imagePrefix + component, version);
    var head := repository + "/" + imagePrefix;
    assert image == head + component + AddVersionSeparatorPrefix(version);
    assert image[|head| + i] == component[i];
  }

  /** With the same repository and prefix, different components never run
      the same image, whatever their versions: the four names already differ
      in their sixth character. */
  lemma ComponentImagesDiffer(repository: string, imagePrefix: string, c1: string, c2: string, v1: string, v2: string)
    requires c1 in ImageComponents && c2 in ImageComponents && c1 != c2
    ensures ImageReference(repository, imagePrefix + c1, v1) != ImageReference(repository, imagePrefix + c2, v2)
  {
    ImageCharacter(repository, imagePrefix, c1, v1, 5);
    ImageCharacter(repository, imagePrefix, c2, v2, 5);
    assert c1[5] != c2[5];
  }

  // ---------------------------------------------------------------------
  // Selectors

  /** A base deployment's selector picks a pod template exactly when the
      template was built for a pod of the same name. */
  lemma BaseDeploymentSelectsOwnPods(k: LabelKeys, name: string, podName: string, productName: string, productVersion: string)
    requires k.Distinct() && k.app == KubevirtLabelKey
    ensures MatchLabels(map[KubevirtLabelKey := name], PodTemplateLabels(k, podName, productName, productVersion))
            <==> podName == name
  {
    PodTemplateLabelsSpec(k, podName, productName, productVersion);
    var labels := PodTemplateLabels(k, podName, productName, productVersion);
    if MatchLabels(map[KubevirtLabelKey := name], labels) {
      assert KubevirtLabelKey in map[KubevirtLabelKey := name];
    }
  }

  /** The operator deployment's selector picks exactly the operator's pods. */
  lemma OperatorDeploymentSelectsOwnPods(k: LabelKeys, podName: string, productName: string, productVersion: string)
    requires k.Distinct()
    ensures MatchLabels(map[k.app := VirtOperatorName], PodTemplateLabels(k, podName, productName, productVersion))
            <==> podName == VirtOperatorName
  {
    PodTemplateLabelsSpec(k, podName, productName, productVersion);
    var labels := PodTemplateLabels(k, podName, productName, productVersion);
    if MatchLabels(map[k.app := VirtOperatorName], labels) {
      assert k.app in map[k.app := VirtOperatorName];
    }
  }

  /** The anti-affinity of a component's pods repels exactly the pods of the
      same component, so its replicas prefer different nodes while other
      components' pods are not affected. */
  lemma AntiAffinityRepelsOwnReplicas(k: LabelKeys, name: string, podName: string, productName: string, productVersion: string)
    requires k.Distinct() && k.app == KubevirtLabelKey
    ensures var a := NewPodAntiAffinity(KubevirtLabelKey, KubernetesHostnameTopologyKey, In, [name]);
      TermSelects(a.preferred[0], PodTemplateLabels(k, podName, productName, productVersion)) <==> podName == name
  {
    PodAntiAffinitySelects(KubevirtLabelKey, KubernetesHostnameTopologyKey, In, [name]);
    PodTemplateLabelsSpec(k, podName, productName, productVersion);
  }

  // ---------------------------------------------------------------------
  // Services

  /** The Prometheus service scrapes every pod template the generators build. */
  lemma PrometheusServiceSelectsEveryPod(k: LabelKeys, namespace: string, podName: string, productName: string, productVersion: string)
    requires k.Distinct()
    ensures MatchLabels(NewPrometheusService(k, namespace).selector, PodTemplateLabels(k, podName, productName, productVersion))
  {
    PodTemplateLabelsSpec(k, podName, productName, productVersion);
  }

  /** The virt-api service forwards to the virt-api pods and to no other pods
      the generators build. */
  lemma ApiServiceSelectsApiPods(k: LabelKeys, namespace: string, podName: string, productName: string, productVersion: string)
    requires k.Distinct()
    ensures MatchLabels(NewApiServerService(k, namespace).selector, PodTemplateLabels(k, podName, productName, productVersion))
            <==> podName == VirtApiName
  {
    PodTemplateLabelsSpec(k, podName, productName, productVersion);
  }

  // ---------------------------------------------------------------------
  // Disruption budgets

  /** The budget of a base deployment covers the pods of that deployment. */
  lemma DisruptionBudgetCoversPods(k: LabelKeys, d: Deployment, productName: string, productVersion: string)
    requires k.Distinct() && k.app == KubevirtLabelKey
    requires d.selector == map[KubevirtLabelKey := d.name]
    requires d.template.labels == PodTemplateLabels(k, d.name, productName, productVersion)
    ensures MatchLabels(NewPodDisruptionBudgetForDeployment(k, d).selector, d.template.labels)
  {
    BaseDeploymentSelectsOwnPods(k, d.name, d.name, productName, productVersion);
  }

  /** Deployments with different names get budgets with different names,
      and no budget is named like its deployment. */
  lemma DisruptionBudgetNamesDistinct(k: LabelKeys, d1: Deployment, d2: Deployment)
    ensures NewPodDisruptionBudgetForDeployment(k, d1).name != d1.name
    ensures d1.name != d2.name ==> NewPodDisruptionBudgetForDeployment(k, d1).name != NewPodDisruptionBudgetForDeployment(k, d2).name
  {
    var p1 := NewPodDisruptionBudgetForDeployment(k, d1);
    var p2 := NewPodDisruptionBudgetForDeployment(k, d2);
    if p1.name == p2.name {
      assert d1.name == p1.name[..|p1.name| - 4] == p2.name[..|p2.name| - 4] == d2.name;
    }
  }

  // ---------------------------------------------------------------------
  // The operator's env

  /** The entries of the operator's env carry the names in their listed order. */
  lemma OperatorEnvNames(n: EnvNames, image: string, kubeVirtVersion: string, apiSha: string, controllerSha: string,
                         handlerSha: string, launcherSha: string, gsSha: string)
    ensures var env := OperatorEnv(n, image, kubeVirtVersion, apiSha, controllerSha, handlerSha, launcherSha, gsSha);
      |env| <= 8 && forall i :: 0 <= i < |env| ==> env[i].name == n.InEnvOrder()[i]
  {
    OperatorEnvShape(n, image, kubeVirtVersion, apiSha, controllerSha, handlerSha, launcherSha, gsSha);
  }

  /** The value the operator reads for one of its names: the entry at
      position `i` when the env is that long, and nothing otherwise. */
  lemma OperatorEnvLookupAt(n: EnvNames, env: seq<EnvVar>, i: int)
    requires n.Distinct() && 0 <= i < 8
    requires |env| <= 8 && forall j :: 0 <= j < |env| ==> env[j].name == n.InEnvOrder()[j]
    ensures EnvLookup(env, n.InEnvOrder()[i]) == if i < |env| then Some(env[i].source) else None
  {
    if i < |env| {
      EnvLookupFinds(env, i);
    }
  }

  /** With distinct names, the operator reads its image and the watched
      namespace always, each shasum exactly when all five version and shasum
      inputs are given, and the gs shasum exactly when it is given as well. */
  lemma OperatorEnvLookup(n: EnvNames, image: string, kubeVirtVersion: string, apiSha: string, controllerSha: string,
                          handlerSha: string, launcherSha: string, gsSha: string)
    requires n.Distinct()
    ensures var env := OperatorEnv(n, image, kubeVirtVersion, apiSha, controllerSha, handlerSha, launcherSha, gsSha);
      var all := AllShaSumsGiven(kubeVirtVersion, apiSha, controllerSha, handlerSha, launcherSha);
      && EnvLookup(env, n.operatorImage) == Some(Literal(image))
      && EnvLookup(env, WatchNamespaceEnvName) == Some(FieldRef("metadata.annotations['olm.targetNamespaces']"))
      && EnvLookup(env, n.kubeVirtVersion) == (if all then Some(Literal(kubeVirtVersion)) else None)
      && EnvLookup(env, n.apiSha) == (if all then Some(Literal(apiSha)) else None)
      && EnvLookup(env, n.controllerSha) == (if all then Some(Literal(controllerSha)) else None)
      && EnvLookup(env, n.handlerSha) == (if all then Some(Literal(handlerSha)) else None)
      && EnvLookup(env, n.launcherSha) == (if all then Some(Literal(launcherSha)) else None)
      && EnvLookup(env, n.gsSha) == (if all && gsSha != "" then Some(Literal(gsSha)) else None)
  {
    var env := OperatorEnv(n, image, kubeVirtVersion, apiSha, controllerSha, handlerSha, launcherSha, gsSha);
    OperatorEnvShape(n, image, kubeVirtVersion, apiSha, controllerSha, handlerSha, launcherSha, gsSha);
    OperatorEnvNames(n, image, kubeVirtVersion, apiSha, controllerSha, handlerSha, launcherSha, gsSha);
    assert env[0] == env[..2][0] && env[1] == env[..2][1];
    if |env| > 2 {
      assert env[2] == env[2..7][0] && env[3] == env[2..7][1] && env[4] == env[2..7][2];
      assert env[5] == env[2..7][3] && env[6] == env[2..7][4];
    }
    forall i | 0 <= i < 8
      ensures EnvLookup(env, n.InEnvOrder()[i]) == if i < |env| then Some(env[i].source) else None
    {
      OperatorEnvLookupAt(n, env, i);
    }
    var names := n.InEnvOrder();
    assert names[2] == n.kubeVirtVersion && names[3] == n.apiSha && names[4] == n.controllerSha;
    assert names[5] == n.handlerSha && names[6] == n.launcherSha && names[7] == n.gsSha;
  }
}
