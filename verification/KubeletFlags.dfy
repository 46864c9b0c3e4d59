// The kubelet flags that depend on the version, the cluster or the node, one by one.
module KubeletFlags {
  import opened GoMaps
  import opened Gates
  import opened Options
  import opened Strings
  import opened Versions
  import opened Layering
  import opened NodeLayering
  import opened Kubelet
  import opened KubeletUpgrade
  import opened KubeletInheritance

  const SINCE_1_10 := Release(1, 10, 0)
  const SINCE_1_11_9 := Release(1, 11, 9)
  const SINCE_1_12 := Release(1, 12, 0)
  const SINCE_1_15_BETA_1 := PreRelease(1, 15, 0, [Alpha("beta"), Num(1)])
  const SINCE_1_16 := Release(1, 16, 0)
  const SINCE_1_24_ALPHA := PreRelease(1, 24, 0, [Alpha("alpha")])
  const SINCE_1_27 := Release(1, 27, 0)

  // ---- The tables ----

  // The keys below are told apart from those of a table by their lengths and single letters.

  lemma NotCommon(facts: KubeletFacts, key: string)
    requires |key| !in {3, 9, 13, 18, 19, 20, 29} || (|key| == 19 && key[2] == 'c')
    ensures key !in CommonPaths(facts)
  {
  }

  lemma NotPaths(key: string)
    requires |key| !in {12, 15, 17, 19, 22} || (|key| == 19 && key[2] == 'c')
    ensures key !in LinuxPaths()
  {
  }

  lemma NotBasicFlag(facts: KubeletFacts, key: string)
    requires |key| !in {10, 11, 14, 15, 16, 17, 19, 21, 24, 25, 26, 27, 30, 33, 35} || (|key| == 16 && key[2] == 'a')
            || (|key| == 16 && key[2] == 'r') || (|key| == 16 && key[4] == 'i') || (|key| == 19 && key[2] == 'c')
            || (|key| == 21 && key[2] == 'r') || (|key| == 25 && key[2] == 'r') || (|key| == 30 && key[2] == 'a')
    ensures key !in BasicConfig(facts)
  {
  }

  predicate Gone(version: Version, key: string) {
    || (!Ge(version, SINCE_1_10) && key == "--pod-max-pids")
    || (Ge(version, SINCE_1_12) && key == "--cadvisor-port")
    || (Ge(version, SINCE_1_15_BETA_1) && key == "--allow-privileged")
    || (Ge(version, SINCE_1_24_ALPHA) && IsDockershim(key))
    || (Ge(version, SINCE_1_27) && key in {"--master-service-namespace", "--container-runtime"})
  }

  predicate IsDockershim(key: string) {
    key in {"--cni-conf-dir", "--cni-bin-dir", "--cni-cache-dir", "--docker-endpoint", "--experimental-dockershim-root-directory",
            "--image-pull-progress-deadline", "--network-plugin", "--network-plugin-mtu", "--non-masquerade-cidr"}
  }

  lemma GoneIsRemoved(version: Version, key: string)
    ensures key in ToSet(RemovedFlags(version)) <==> Gone(version, key)
  {
    hide Ge, DockershimFlags, RemovedFlags, IsDockershim;
    RemovedSet(version);
    Dockershim(key);
  }

  lemma Dockershim(key: string)
    ensures key in ToSet(DockershimFlags()) <==> IsDockershim(key)
  {
  }

  // ---- The cluster's flags ----

  // The layers of the cluster's flags, as far as single flags go.
  ghost predicate OfCluster(layers: NodeLayers, version: Version, facts: KubeletFacts, isUpgrade: bool) {
    && Bare(layers) && layers.removed == ToSet(RemovedFlags(version)) && layers.inherited == DefaultConfig(version, facts)
    && layers.forced == If(isUpgrade, map[INFRA_IMAGE := Get(layers.inherited, INFRA_IMAGE)]) + KubenetPlugin(facts) + StaticLinux(facts)
  }

  lemma ClusterIs(version: Version, facts: KubeletFacts, isUpgrade: bool) returns (layers: NodeLayers)
    ensures OfCluster(layers, version, facts, isUpgrade)
    ensures forall user :: ClusterConfig(version, facts, isUpgrade, user) == layers.Apply(user)
  {
    hide NodeLayers.Apply, NodeLayers.WellFormed, StaticLinux, KubenetPlugin, DefaultConfig, RemovedFlags, Invalid, DefaultGates, ToSet,
      Ge;
    layers := ClusterLayers(version, facts, isUpgrade);
    ClusterWellFormed(version, facts, isUpgrade);
  }

  lemma FlagOf(layers: NodeLayers, version: Version, facts: KubeletFacts, isUpgrade: bool, user: Entries, key: string)
    requires OfCluster(layers, version, facts, isUpgrade) && key != FEATURE_GATES && key != PIDS
    ensures Get?(layers.Apply(user), key)
         == if Gone(version, key) then None
            else if key in StaticLinux(facts) then Some(StaticLinux(facts)[key])
            else if key in KubenetPlugin(facts) then Some(KubenetPlugin(facts)[key])
            else if isUpgrade && key == INFRA_IMAGE then Some(Get(layers.inherited, INFRA_IMAGE))
            else if key in user then Some(user[key])
            else Get?(layers.inherited, key)
  {
    hide NodeLayers.Apply, NodeLayers.WellFormed, StaticLinux, KubenetPlugin, DefaultConfig, RemovedFlags, Invalid, DefaultGates, ToSet,
      Ge, Gone;
    BareFlag(layers, user, key);
    GoneIsRemoved(version, key);
  }

  function UserOr(user: Entries, key: string, default: string): Option<string> {
    Some(if key in user then user[key] else default)
  }

  // Not forced in any cluster.
  lemma NotForced(facts: KubeletFacts, key: string)
    requires |key| == 10 || (|key| == 16 && key[2] == 'r') || (|key| == 19 && key[2] == 'c')
            || (|key| == 21 && key[2] == 'n') || (|key| == 21 && key[2] == 'r') || (|key| == 25 && key[2] == 'r')
            || |key| == 28 || (|key| == 30 && key[2] == 'a') || (|key| == 30 && key[2] == 'n')
    ensures key !in StaticLinux(facts) && key !in KubenetPlugin(facts) && key !in {INFRA_IMAGE, FEATURE_GATES, PIDS}
  {
    hide CommonPaths, LinuxPaths;
    NotCommon(facts, key);
    NotPaths(key);
    assert |"--anonymous-auth"| == 16 && |"--client-ca-file"| == 16 && |"--cloud-provider"| == 16
      && |"--network-plugin"| == 16 && |"--pod-infra-container-image"| == 27 && |"--feature-gates"| == 15
      && |"--pod-max-pids"| == 14;
  }

  lemma DefaultOrUser(layers: NodeLayers, version: Version, facts: KubeletFacts, isUpgrade: bool, user: Entries, key: string)
    requires OfCluster(layers, version, facts, isUpgrade)
    requires |key| == 10 || (|key| == 16 && key[2] == 'r') || (|key| == 19 && key[2] == 'c')
            || (|key| == 21 && key[2] == 'n') || (|key| == 21 && key[2] == 'r') || (|key| == 25 && key[2] == 'r')
            || |key| == 28 || (|key| == 30 && key[2] == 'a') || (|key| == 30 && key[2] == 'n')
    ensures Get?(layers.Apply(user), key)
         == if Gone(version, key) then None else if key in user then Some(user[key]) else Get?(layers.inherited, key)
  {
    hide NodeLayers.Apply, OfCluster, StaticLinux, KubenetPlugin, DefaultConfig, Gone, Ge;
    NotForced(facts, key);
    FlagOf(layers, version, facts, isUpgrade, user, key);
  }

  lemma BasicMaxPods(facts: KubeletFacts)
    ensures Get?(BasicConfig(facts), "--max-pods") == Some(if facts.networkPlugin == "azure" then "30" else "110")
  {
    assert |"--max-pods"| == 10;
  }

  lemma BasicMasquerade(facts: KubeletFacts)
    ensures Get?(BasicConfig(facts), "--non-masquerade-cidr") == Some(if facts.ipMasqAgentDisabled then facts.clusterSubnet else "0.0.0.0/0")
  {
    assert |"--non-masquerade-cidr"| == 21;
  }

  lemma BasicPlugin(facts: KubeletFacts)
    ensures Get?(BasicConfig(facts), "--network-plugin") == Some("cni")
  {
    assert |"--network-plugin"| == 16 && "--network-plugin"[2] == 'n';
  }

  lemma BasicImage(facts: KubeletFacts)
    ensures Get?(BasicConfig(facts), "--pod-infra-container-image") == Some(facts.pauseImage)
  {
    assert |"--pod-infra-container-image"| == 27;
  }

  lemma BasicProvider(facts: KubeletFacts)
    ensures Get?(BasicConfig(facts), "--cloud-provider") == Some("azure")
  {
    assert |"--cloud-provider"| == 16 && "--cloud-provider"[4] == 'o';
  }

  lemma VersionDefaults(version: Version, facts: KubeletFacts)
    ensures Get?(VersionConfig(version, facts), "--rotate-certificates") == if Ge(version, SINCE_1_11_9) then Some("true") else None
    ensures Get?(VersionConfig(version, facts), "--authentication-token-webhook")
         == if Ge(version, SINCE_1_16) then Some("true") else None
    ensures Get?(VersionConfig(version, facts), "--read-only-port") == if Ge(version, SINCE_1_16) then Some("0") else None
  {
    hide Ge;
    assert |"--rotate-certificates"| == 21 && |"--authentication-token-webhook"| == 30 && |"--read-only-port"| == 16;
  }

  lemma RuntimeDefaults(version: Version, facts: KubeletFacts)
    ensures Get?(VersionConfig(version, facts), "--container-runtime")
         == if facts.needsContainerd && !Ge(version, SINCE_1_27) then Some("remote") else None
    ensures Get?(VersionConfig(version, facts), "--container-runtime-endpoint")
         == if facts.needsContainerd then Some("unix:///run/containerd/containerd.sock") else None
    ensures Get?(VersionConfig(version, facts), "--runtime-request-timeout")
         == if facts.needsContainerd then Some("15m") else None
  {
    hide Ge;
    assert |"--container-runtime"| == 19 && |"--runtime-request-timeout"| == 25
      && |"--container-runtime-endpoint"| == 28;
  }

  lemma NotVersioned(version: Version, facts: KubeletFacts, key: string)
    requires |key| == 10 || (|key| == 16 && key[2] == 'a') || (|key| == 16 && key[2] == 'c' && key[4] == 'i')
            || (|key| == 16 && key[2] == 'c' && key[4] == 'o') || (|key| == 16 && key[2] == 'n')
            || (|key| == 21 && key[2] == 'n') || |key| == 27
    ensures key !in VersionConfig(version, facts)
  {
    hide VersionConfig;
    assert |"--rotate-certificates"| == 21 && |"--authentication-token-webhook"| == 30 && |"--read-only-port"| == 16
      && |"--container-runtime"| == 19 && |"--runtime-request-timeout"| == 25 && |"--container-runtime-endpoint"| == 28;
    if key in VersionConfig(version, facts) {
      VersionKeys(version, facts, key);
    }
  }

  // Which of these flags are ever removed.
  lemma GoneHere(version: Version, key: string)
    requires |key| == 10 || (|key| == 16 && key[2] == 'a') || (|key| == 16 && key[2] == 'c' && key[4] == 'i')
            || (|key| == 16 && key[2] == 'c' && key[4] == 'o') || (|key| == 16 && key[2] == 'n')
            || (|key| == 16 && key[2] == 'r') || (|key| == 19 && key[2] == 'c') || (|key| == 21 && key[2] == 'n')
            || (|key| == 21 && key[2] == 'r') || (|key| == 25 && key[2] == 'r') || |key| == 27 || |key| == 28
            || (|key| == 30 && key[2] == 'a') || (|key| == 30 && key[2] == 'n')
    ensures Gone(version, key)
       <==> || (Ge(version, SINCE_1_24_ALPHA) && key in {"--network-plugin", "--non-masquerade-cidr"})
            || (Ge(version, SINCE_1_27) && key == "--container-runtime")
  {
    hide Ge;
    assert |"--pod-max-pids"| == 14 && |"--cadvisor-port"| == 15 && |"--allow-privileged"| == 18
      && |"--cni-conf-dir"| == 14 && |"--cni-bin-dir"| == 13 && |"--cni-cache-dir"| == 15 && |"--docker-endpoint"| == 17
      && |"--experimental-dockershim-root-directory"| == 40 && |"--image-pull-progress-deadline"| == 30
      && |"--network-plugin"| == 16 && |"--network-plugin-mtu"| == 20 && |"--non-masquerade-cidr"| == 21
      && |"--master-service-namespace"| == 26 && |"--container-runtime"| == 19;
  }

  lemma FinalMaxPods(version: Version, facts: KubeletFacts, isUpgrade: bool, user: Entries, config: Entries)
    requires config == ClusterConfig(version, facts, isUpgrade, user)
    ensures Get?(config, "--max-pods")
         == UserOr(user, "--max-pods", if facts.networkPlugin == "azure" then "30" else "110")
  {
    hide ClusterConfig, NodeLayers.Apply, BasicConfig, VersionConfig, Ge, StaticLinux, KubenetPlugin;
    assert |"--max-pods"| == 10;
    var layers := ClusterIs(version, facts, isUpgrade);
    DefaultOrUser(layers, version, facts, isUpgrade, user, "--max-pods");
    GoneHere(version, "--max-pods");
    BasicMaxPods(facts);
    NotVersioned(version, facts, "--max-pods");
  }

  lemma FinalMasquerade(version: Version, facts: KubeletFacts, isUpgrade: bool, user: Entries, config: Entries)
    requires config == ClusterConfig(version, facts, isUpgrade, user)
    ensures Get?(config, "--non-masquerade-cidr")
         == if Ge(version, SINCE_1_24_ALPHA) then None
            else UserOr(user, "--non-masquerade-cidr", if facts.ipMasqAgentDisabled then facts.clusterSubnet else "0.0.0.0/0")
  {
    hide ClusterConfig, NodeLayers.Apply, BasicConfig, VersionConfig, Ge, StaticLinux, KubenetPlugin;
    assert |"--non-masquerade-cidr"| == 21 && "--non-masquerade-cidr"[2] == 'n';
    var layers := ClusterIs(version, facts, isUpgrade);
    DefaultOrUser(layers, version, facts, isUpgrade, user, "--non-masquerade-cidr");
    GoneHere(version, "--non-masquerade-cidr");
    BasicMasquerade(facts);
    NotVersioned(version, facts, "--non-masquerade-cidr");
  }

  lemma FinalRotation(version: Version, facts: KubeletFacts, isUpgrade: bool, user: Entries, config: Entries)
    requires config == ClusterConfig(version, facts, isUpgrade, user)
    ensures Get?(config, "--rotate-certificates")
         == if "--rotate-certificates" in user then Get?(user, "--rotate-certificates")
            else if Ge(version, SINCE_1_11_9) then Some("true") else None
  {
    hide ClusterConfig, NodeLayers.Apply, BasicConfig, VersionConfig, Ge, StaticLinux, KubenetPlugin;
    assert |"--rotate-certificates"| == 21 && "--rotate-certificates"[2] == 'r';
    var layers := ClusterIs(version, facts, isUpgrade);
    DefaultOrUser(layers, version, facts, isUpgrade, user, "--rotate-certificates");
    GoneHere(version, "--rotate-certificates");
    VersionDefaults(version, facts);
    NotBasicFlag(facts, "--rotate-certificates");
  }

  lemma FinalWebhook(version: Version, facts: KubeletFacts, isUpgrade: bool, user: Entries, config: Entries)
    requires config == ClusterConfig(version, facts, isUpgrade, user)
    ensures Get?(config, "--authentication-token-webhook")
         == if "--authentication-token-webhook" in user then Get?(user, "--authentication-token-webhook")
            else if Ge(version, SINCE_1_16) then Some("true") else None
  {
    hide ClusterConfig, NodeLayers.Apply, BasicConfig, VersionConfig, Ge, StaticLinux, KubenetPlugin;
    assert |"--authentication-token-webhook"| == 30 && "--authentication-token-webhook"[2] == 'a';
    var layers := ClusterIs(version, facts, isUpgrade);
    DefaultOrUser(layers, version, facts, isUpgrade, user, "--authentication-token-webhook");
    GoneHere(version, "--authentication-token-webhook");
    VersionDefaults(version, facts);
    NotBasicFlag(facts, "--authentication-token-webhook");
  }

  lemma FinalReadOnlyPort(version: Version, facts: KubeletFacts, isUpgrade: bool, user: Entries, config: Entries)
    requires config == ClusterConfig(version, facts, isUpgrade, user)
    ensures Get?(config, "--read-only-port")
         == if "--read-only-port" in user then Get?(user, "--read-only-port")
            else if Ge(version, SINCE_1_16) then Some("0") else None
  {
    hide ClusterConfig, NodeLayers.Apply, BasicConfig, VersionConfig, Ge, StaticLinux, KubenetPlugin;
    assert |"--read-only-port"| == 16 && "--read-only-port"[2] == 'r';
    var layers := ClusterIs(version, facts, isUpgrade);
    DefaultOrUser(layers, version, facts, isUpgrade, user, "--read-only-port");
    GoneHere(version, "--read-only-port");
    VersionDefaults(version, facts);
    NotBasicFlag(facts, "--read-only-port");
  }

  lemma FinalRuntime(version: Version, facts: KubeletFacts, isUpgrade: bool, user: Entries, config: Entries)
    requires config == ClusterConfig(version, facts, isUpgrade, user)
    ensures Get?(config, "--container-runtime")
         == if Ge(version, SINCE_1_27) then None
            else if "--container-runtime" in user then Get?(user, "--container-runtime")
            else if facts.needsContainerd then Some("remote") else None
  {
    hide ClusterConfig, NodeLayers.Apply, BasicConfig, VersionConfig, Ge, StaticLinux, KubenetPlugin;
    assert |"--container-runtime"| == 19 && "--container-runtime"[2] == 'c';
    var layers := ClusterIs(version, facts, isUpgrade);
    DefaultOrUser(layers, version, facts, isUpgrade, user, "--container-runtime");
    GoneHere(version, "--container-runtime");
    RuntimeDefaults(version, facts);
    NotBasicFlag(facts, "--container-runtime");
  }

  lemma FinalRuntimeEndpoint(version: Version, facts: KubeletFacts, isUpgrade: bool, user: Entries, config: Entries)
    requires config == ClusterConfig(version, facts, isUpgrade, user)
    ensures Get?(config, "--container-runtime-endpoint")
         == if "--container-runtime-endpoint" in user then Get?(user, "--container-runtime-endpoint")
            else if facts.needsContainerd then Some("unix:///run/containerd/containerd.sock") else None
  {
    hide ClusterConfig, NodeLayers.Apply, BasicConfig, VersionConfig, Ge, StaticLinux, KubenetPlugin;
    assert |"--container-runtime-endpoint"| == 28;
    var layers := ClusterIs(version, facts, isUpgrade);
    DefaultOrUser(layers, version, facts, isUpgrade, user, "--container-runtime-endpoint");
    GoneHere(version, "--container-runtime-endpoint");
    RuntimeDefaults(version, facts);
    NotBasicFlag(facts, "--container-runtime-endpoint");
  }

  // The parts of the forced flags that depend on the cluster.
  lemma InStaticLinux(facts: KubeletFacts)
    ensures Get?(StaticLinux(facts), "--cloud-provider") == if facts.useCloudControllerManager then Some("external") else None
    ensures Get?(StaticLinux(facts), "--anonymous-auth") == if facts.enableSecureKubelet then Some("false") else None
    ensures Get?(StaticLinux(facts), "--client-ca-file")
         == if facts.enableSecureKubelet then Some("/etc/kubernetes/certs/ca.crt") else None
    ensures "--network-plugin" !in StaticLinux(facts) && "--pod-infra-container-image" !in StaticLinux(facts)
  {
    hide CommonPaths, LinuxPaths;
    assert |"--cloud-provider"| == 16 && "--cloud-provider"[2] == 'c' && "--cloud-provider"[4] == 'o'
      && |"--anonymous-auth"| == 16 && "--anonymous-auth"[2] == 'a' && |"--client-ca-file"| == 16
      && "--client-ca-file"[4] == 'i' && |"--network-plugin"| == 16 && "--network-plugin"[2] == 'n'
      && |"--pod-infra-container-image"| == 27;
    forall key | key in {"--cloud-provider", "--anonymous-auth", "--client-ca-file", "--network-plugin", "--pod-infra-container-image"}
      ensures key !in CommonPaths(facts) && key !in LinuxPaths()
    {
      NotCommon(facts, key);
      NotPaths(key);
    }
  }

  lemma FinalCloudProvider(version: Version, facts: KubeletFacts, isUpgrade: bool, user: Entries, config: Entries)
    requires config == ClusterConfig(version, facts, isUpgrade, user)
    ensures Get?(config, "--cloud-provider")
         == if facts.useCloudControllerManager then Some("external") else UserOr(user, "--cloud-provider", "azure")
  {
    hide ClusterConfig, NodeLayers.Apply, BasicConfig, VersionConfig, Ge, StaticLinux, KubenetPlugin;
    assert |"--cloud-provider"| == 16 && "--cloud-provider"[2] == 'c' && "--cloud-provider"[4] == 'o';
    var layers := ClusterIs(version, facts, isUpgrade);
    InStaticLinux(facts);
    FlagOf(layers, version, facts, isUpgrade, user, "--cloud-provider");
    GoneHere(version, "--cloud-provider");
    NotKubenet(facts, "--cloud-provider");
    BasicProvider(facts);
    NotVersioned(version, facts, "--cloud-provider");
  }

  lemma FinalAnonymous(version: Version, facts: KubeletFacts, isUpgrade: bool, user: Entries, config: Entries)
    requires config == ClusterConfig(version, facts, isUpgrade, user)
    ensures Get?(config, "--anonymous-auth")
         == if facts.enableSecureKubelet then Some("false") else Get?(user, "--anonymous-auth")
  {
    hide ClusterConfig, NodeLayers.Apply, BasicConfig, VersionConfig, Ge, StaticLinux, KubenetPlugin;
    assert |"--anonymous-auth"| == 16 && "--anonymous-auth"[2] == 'a';
    var layers := ClusterIs(version, facts, isUpgrade);
    InStaticLinux(facts);
    FlagOf(layers, version, facts, isUpgrade, user, "--anonymous-auth");
    GoneHere(version, "--anonymous-auth");
    NotKubenet(facts, "--anonymous-auth");
    NotBasicFlag(facts, "--anonymous-auth");
    NotVersioned(version, facts, "--anonymous-auth");
  }

  lemma FinalClientCa(version: Version, facts: KubeletFacts, isUpgrade: bool, user: Entries, config: Entries)
    requires config == ClusterConfig(version, facts, isUpgrade, user)
    ensures Get?(config, "--client-ca-file")
         == if facts.enableSecureKubelet then Some("/etc/kubernetes/certs/ca.crt") else Get?(user, "--client-ca-file")
  {
    hide ClusterConfig, NodeLayers.Apply, BasicConfig, VersionConfig, Ge, StaticLinux, KubenetPlugin;
    assert |"--client-ca-file"| == 16 && "--client-ca-file"[2] == 'c' && "--client-ca-file"[4] == 'i';
    var layers := ClusterIs(version, facts, isUpgrade);
    InStaticLinux(facts);
    FlagOf(layers, version, facts, isUpgrade, user, "--client-ca-file");
    GoneHere(version, "--client-ca-file");
    NotKubenet(facts, "--client-ca-file");
    NotBasicFlag(facts, "--client-ca-file");
    NotVersioned(version, facts, "--client-ca-file");
  }

  lemma FinalPlugin(version: Version, facts: KubeletFacts, isUpgrade: bool, user: Entries, config: Entries)
    requires config == ClusterConfig(version, facts, isUpgrade, user)
    ensures Get?(config, "--network-plugin")
         == if Ge(version, SINCE_1_24_ALPHA) then None
            else if facts.networkPlugin == "kubenet" && facts.networkPolicy != "calico" then Some("kubenet")
            else UserOr(user, "--network-plugin", "cni")
  {
    hide ClusterConfig, NodeLayers.Apply, BasicConfig, VersionConfig, Ge, StaticLinux, KubenetPlugin;
    assert |"--network-plugin"| == 16 && "--network-plugin"[2] == 'n';
    var layers := ClusterIs(version, facts, isUpgrade);
    InStaticLinux(facts);
    FlagOf(layers, version, facts, isUpgrade, user, "--network-plugin");
    GoneHere(version, "--network-plugin");
    IsKubenet(facts);
    BasicPlugin(facts);
    NotVersioned(version, facts, "--network-plugin");
  }

  lemma FinalImage(version: Version, facts: KubeletFacts, isUpgrade: bool, user: Entries, config: Entries)
    requires config == ClusterConfig(version, facts, isUpgrade, user)
    ensures Get?(config, "--pod-infra-container-image")
         == if isUpgrade then Some(facts.pauseImage) else UserOr(user, "--pod-infra-container-image", facts.pauseImage)
  {
    hide ClusterConfig, NodeLayers.Apply, BasicConfig, VersionConfig, Ge, StaticLinux, KubenetPlugin;
    assert |"--pod-infra-container-image"| == 27;
    var layers := ClusterIs(version, facts, isUpgrade);
    InStaticLinux(facts);
    FlagOf(layers, version, facts, isUpgrade, user, "--pod-infra-container-image");
    GoneHere(version, "--pod-infra-container-image");
    NotKubenet(facts, "--pod-infra-container-image");
    BasicImage(facts);
    NotVersioned(version, facts, "--pod-infra-container-image");
  }

  lemma NotKubenet(facts: KubeletFacts, key: string)
    requires |key| != 16 || key[2] != 'n'
    ensures key !in KubenetPlugin(facts)
  {
    assert |"--network-plugin"| == 16 && "--network-plugin"[2] == 'n';
  }

  lemma IsKubenet(facts: KubeletFacts)
    ensures Get?(KubenetPlugin(facts), "--network-plugin")
         == if facts.networkPlugin == "kubenet" && facts.networkPolicy != "calico" then Some("kubenet") else None
  {
  }

  // ---- The flags of the nodes ----

  // The value of a flag that no search decides, on a master.
  lemma MasterFlag(version: Version, facts: KubeletFacts, isUpgrade: bool, cluster: Entries, p: NodeProfile, anyAgentIsLinux: bool,
                   user: Entries, key: string)
    requires key !in {"--feature-gates", "--pod-max-pids", "--register-with-taints"}
    ensures Get?(MasterConfig(version, facts, isUpgrade, cluster, p, anyAgentIsLinux, user), key)
         == if Gone(version, key) then None
            else if p.isUbuntu && key == "--resolv-conf" then Some("/run/systemd/resolve/resolv.conf")
            else if facts.useCloudControllerManager && key == "--cloud-provider" then Some("external")
            else if isUpgrade && key == "--pod-infra-container-image" then Some(Get(cluster, "--pod-infra-container-image"))
            else if key in cluster + user then Get?(cluster + user, key)
            else if p.isVHD && key == "--protect-kernel-defaults" then Some("true") else None
  {
    hide NodeLayers.Apply, NodeLayers.WellFormed, RemovedFlags, Invalid, ToSet, Ge, Gone;
    var layers := MasterLayers(version, facts, isUpgrade, cluster, p.isVHD, p.isUbuntu, anyAgentIsLinux);
    MasterWellFormed(version, facts, isUpgrade, cluster, p.isVHD, p.isUbuntu, anyAgentIsLinux);
    SpecialNames();
    layers.OrdinaryFlag(user, key);
    GoneIsRemoved(version, key);
  }

  lemma SpecialNames()
    ensures FEATURE_GATES == "--feature-gates" && PIDS == "--pod-max-pids" && TAINTS == "--register-with-taints"
    ensures CLOUD_PROVIDER == "--cloud-provider" && INFRA_IMAGE == "--pod-infra-container-image" && CLOUD_PROVIDER != INFRA_IMAGE
  {
    assert |CLOUD_PROVIDER| == 16 && |INFRA_IMAGE| == 27;
  }

  // The same in an agent pool, where the flags of its operating system are forced.
  lemma PoolFlag(version: Version, facts: KubeletFacts, isUpgrade: bool, cluster: Entries, p: NodeProfile, user: Entries, key: string)
    requires key !in {"--feature-gates", "--pod-max-pids", "--register-with-taints"}
    ensures Get?(PoolConfig(version, facts, isUpgrade, cluster, p, user), key)
         == if Gone(version, key) then None
            else if p.isUbuntu && key == "--resolv-conf" then Some("/run/systemd/resolve/resolv.conf")
            else if p.isWindows && key in StaticWindows(facts) then Get?(StaticWindows(facts), key)
            else if !p.isWindows && key in StaticLinux(facts) then Get?(StaticLinux(facts), key)
            else if isUpgrade && key == "--pod-infra-container-image" then Some(Get(cluster, "--pod-infra-container-image"))
            else if key in cluster + user then Get?(cluster + user, key)
            else if p.isVHD && key == "--protect-kernel-defaults" then Some("true") else None
  {
    hide NodeLayers.Apply, NodeLayers.WellFormed, RemovedFlags, Invalid, ToSet, Ge, Gone, StaticLinux, StaticWindows;
    var layers := PoolLayers(version, facts, isUpgrade, cluster, p.isWindows, p.isVHD, p.isUbuntu);
    PoolWellFormed(version, facts, isUpgrade, cluster, p.isWindows, p.isVHD, p.isUbuntu);
    SpecialNames();
    layers.OrdinaryFlag(user, key);
    GoneIsRemoved(version, key);
  }

  // Windows nodes have their own paths, image and limits.
  lemma InStaticWindows(facts: KubeletFacts)
    ensures Get?(StaticWindows(facts), "--client-ca-file") == if facts.enableSecureKubelet then Some("c:\\k\\ca.crt") else None
    ensures Get?(StaticWindows(facts), "--anonymous-auth") == if facts.enableSecureKubelet then Some("false") else None
  {
    hide CommonPaths, WindowsPaths;
    assert |"--anonymous-auth"| == 16 && "--anonymous-auth"[2] == 'a' && |"--client-ca-file"| == 16
      && "--client-ca-file"[2] == 'c';
    NotCommon(facts, "--client-ca-file");
    NotCommon(facts, "--anonymous-auth");
    NotWindowsPath("--client-ca-file");
    NotWindowsPath("--anonymous-auth");
  }

  lemma NotWindowsPath(key: string)
    requires |key| !in {12, 13, 14, 15, 17, 19, 22, 26, 27, 30, 33}
    ensures key !in WindowsPaths()
  {
  }

  lemma WindowsImage(facts: KubeletFacts)
    ensures Get?(StaticWindows(facts), "--pod-infra-container-image") == Some("kubletwin/pause")
  {
    hide CommonPaths;
    assert |"--pod-infra-container-image"| == 27 && |"--anonymous-auth"| == 16 && |"--client-ca-file"| == 16;
    ImageInLimits();
  }

  lemma ImageInLimits()
    ensures Get?(WindowsPaths(), "--pod-infra-container-image") == Some("kubletwin/pause")
  {
    assert |"--pod-infra-container-image"| == 27;
  }

  // ---- Gates ----

  // The final gates of the cluster: the user's over the default ones, minus the removed ones.
  lemma FinalGates(version: Version, facts: KubeletFacts, isUpgrade: bool, user: Entries, config: Entries, gate: string)
    requires config == ClusterConfig(version, facts, isUpgrade, user)
    ensures Get?(Parse(GatesOf(config)), gate)
         == if gate in ToSet(InvalidFeatureGates(version, [])) then None
            else if gate in Parse(GatesOf(user)) then Get?(Parse(GatesOf(user)), gate)
            else if gate == "RotateKubeletServerCertificate" && Ge(version, SINCE_1_11_9) then Some("true")
            else if gate == "ExecProbeTimeout" && Ge(version, SINCE_1_20_RC_0) then Some("true")
            else if gate == "PodSecurity" && Ge(version, SINCE_1_25) then Some("true")
            else None
  {
    hide NodeLayers.Apply, StaticLinux, DefaultConfig, KubenetPlugin, DefaultGates, RemovedFlags, InvalidFeatureGates, ToSet, Parse,
      Meaning, Ge, Follows, GatesGrow;
    SameVersion(version);
    ClusterFollows(version, version, facts, facts, isUpgrade);
    GatesAbsorbed(ClusterLayers(version, facts, isUpgrade), ClusterLayers(version, facts, true), user);
    MeaningOfDefaults(version);
    DifferentGates();
  }

  const SINCE_1_20_RC_0 := PreRelease(1, 20, 0, [Alpha("rc"), Num(0)])
  const SINCE_1_25 := Release(1, 25, 0)
}
