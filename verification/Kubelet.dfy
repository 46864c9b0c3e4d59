// pkg/api/defaults-kubelet.go: the cluster-wide kubelet flags, and those of the masters and of
// every agent pool, which inherit from them.
module Kubelet {
  import opened GoMaps
  import opened Options
  import opened Strings
  import opened Gates
  import opened GateSearch
  import opened Versions
  import opened Layering
  import opened NodeLayering
  import opened Cluster

  datatype KubeletFacts = KubeletFacts(
    dnsServiceIP: string,
    enableSecureKubelet: bool,
    clusterSubnet: string,
    ipMasqAgentDisabled: bool,
    networkPlugin: string,
    networkPolicy: string,
    pauseImage: string,              // from the component table of the version
    nodeStatusFrequency: string,     // from the component table, or the Azure Stack constant
    useCloudControllerManager: bool,
    needsContainerd: bool,
    aadPodIdentityAddon: bool)

  // The profile of the cluster, of the masters or of an agent pool.
  class NodeProfile {
    const isLinux: bool
    const isWindows: bool
    const isVHD: bool
    const isUbuntu: bool             // 18.04, 20.04 or 22.04
    var kubeletConfig: StringMap?

    constructor (isLinux: bool, isWindows: bool, isVHD: bool, isUbuntu: bool, kubeletConfig: StringMap?)
      ensures this.isLinux == isLinux && this.isWindows == isWindows
      ensures this.isVHD == isVHD && this.isUbuntu == isUbuntu
      ensures this.kubeletConfig == kubeletConfig
    {
      this.isLinux, this.isWindows, this.isVHD, this.isUbuntu := isLinux, isWindows, isVHD, isUbuntu;
      this.kubeletConfig := kubeletConfig;
    }
  }

  const V110 := Release(1, 10, 0)
  const V1119 := Release(1, 11, 9)
  const V112 := Release(1, 12, 0)
  const V114 := Release(1, 14, 0)
  const V115B1 := PreRelease(1, 15, 0, [Alpha("beta"), Num(1)])
  const V116 := Release(1, 16, 0)
  const V120RC0 := PreRelease(1, 20, 0, [Alpha("rc"), Num(0)])
  const V124A := PreRelease(1, 24, 0, [Alpha("alpha")])

  const INFRA_IMAGE := "--pod-infra-container-image"
  const NETWORK_PLUGIN := "--network-plugin"
  const CLOUD_PROVIDER := "--cloud-provider"
  const PROTECT_KERNEL := "--protect-kernel-defaults"
  const RESOLV_CONF := "--resolv-conf"
  const MASTER_TAINT := "node-role.kubernetes.io/control-plane=true:NoSchedule"
  const IDENTITY_TAINT := "node.kubernetes.io/aad-pod-identity-not-ready"
  const QUOTED_EMPTY := "\"\"\"\""
  const TLS_CIPHERS := "TLS_ECDHE_ECDSA_WITH_AES_128_GCM_SHA256,TLS_ECDHE_RSA_WITH_AES_128_GCM_SHA256,TLS_ECDHE_ECDSA_WITH_CHACHA20_POLY1305,TLS_ECDHE_RSA_WITH_AES_256_GCM_SHA384,TLS_ECDHE_RSA_WITH_CHACHA20_POLY1305,TLS_ECDHE_ECDSA_WITH_AES_256_GCM_SHA384,TLS_RSA_WITH_AES_256_GCM_SHA384,TLS_RSA_WITH_AES_128_GCM_SHA256"

  function If(condition: bool, entries: Entries): Entries {
    if condition then entries else map[]
  }

  // ---- The layers ----

  // Forced on Linux and Windows alike.
  function StaticCommon(facts: KubeletFacts): Entries {
    CommonPaths(facts) + If(facts.enableSecureKubelet, map["--anonymous-auth" := "false"])
  }

  function CommonPaths(facts: KubeletFacts): Entries {
    map["--address" := "0.0.0.0",
        "--allow-privileged" := "true",
        "--authorization-mode" := "Webhook",
        "--cluster-dns" := facts.dnsServiceIP,
        "--keep-terminated-pod-volumes" := "false",
        "--v" := "2",
        "--volume-plugin-dir" := "/etc/kubernetes/volumeplugins"]
  }

  function StaticLinux(facts: KubeletFacts): Entries {
    StaticCommon(facts) + LinuxPaths()
    + If(facts.enableSecureKubelet, map["--client-ca-file" := "/etc/kubernetes/certs/ca.crt"])
    + If(facts.useCloudControllerManager, map[CLOUD_PROVIDER := "external"])
  }

  function LinuxPaths(): Entries {
    map["--pod-manifest-path" := "/etc/kubernetes/manifests",
        "--cgroups-per-qos" := "true",
        "--kubeconfig" := "/var/lib/kubelet/kubeconfig",
        "--tls-cert-file" := "/etc/kubernetes/certs/kubeletserver.crt",
        "--tls-private-key-file" := "/etc/kubernetes/certs/kubeletserver.key"]
  }

  function StaticWindows(facts: KubeletFacts): Entries {
    StaticCommon(facts) + WindowsPaths()
    + If(facts.enableSecureKubelet, map["--client-ca-file" := "c:\\k\\ca.crt"])
  }

  function WindowsPaths(): Entries {
    map["--pod-manifest-path" := "",
        "--tls-cert-file" := "",
        "--tls-private-key-file" := "",
        "--azure-container-registry-config" := "c:\\k\\azure.json",
        "--kubeconfig" := "c:\\k\\config",
        "--cloud-config" := "c:\\k\\azure.json"]
    + WindowsLimits()
  }

  function WindowsLimits(): Entries {
    map["--pod-infra-container-image" := "kubletwin/pause",
        "--cgroups-per-qos" := "false",
        "--enforce-node-allocatable" := QUOTED_EMPTY,
        "--system-reserved" := "memory=2Gi",
        "--hairpin-mode" := "promiscuous-bridge",
        "--image-pull-progress-deadline" := "20m",
        "--resolv-conf" := QUOTED_EMPTY,
        "--eviction-hard" := QUOTED_EMPTY]
  }

  function BasicConfig(facts: KubeletFacts): Entries {
    map["--cluster-domain" := "cluster.local",
        "--network-plugin" := "cni",
        "--pod-infra-container-image" := facts.pauseImage,
        "--max-pods" := if facts.networkPlugin == "azure" then "30" else "110",
        "--eviction-hard" := "memory.available<750Mi,nodefs.available<10%,nodefs.inodesFree<5%",
        "--node-status-update-frequency" := facts.nodeStatusFrequency,
        "--image-gc-high-threshold" := "85",
        "--image-gc-low-threshold" := "80",
        "--non-masquerade-cidr" := if facts.ipMasqAgentDisabled then facts.clusterSubnet else "0.0.0.0/0",
        "--cloud-provider" := "azure",
        "--cloud-config" := "/etc/kubernetes/azure.json",
        "--azure-container-registry-config" := "/etc/kubernetes/azure.json",
        "--event-qps" := "0",
        "--cadvisor-port" := "0",
        "--pod-max-pids" := "-1",
        "--image-pull-progress-deadline" := "30m",
        "--enforce-node-allocatable" := "pods",
        "--streaming-connection-idle-timeout" := "5m",
        "--tls-cipher-suites" := TLS_CIPHERS,
        "--healthz-port" := "10248",
        "--seccomp-default" := "true"]
  }

  // What some versions, or some container runtimes, have in addition.
  function VersionConfig(version: Version, facts: KubeletFacts): Entries {
    If(Ge(version, V1119), map["--rotate-certificates" := "true"])
    + If(Ge(version, V116), map["--authentication-token-webhook" := "true", "--read-only-port" := "0"])
    + If(facts.needsContainerd && !Ge(version, V127), map["--container-runtime" := "remote"])
    + If(facts.needsContainerd,
         map["--runtime-request-timeout" := "15m", "--container-runtime-endpoint" := "unix:///run/containerd/containerd.sock"])
  }

  function DefaultConfig(version: Version, facts: KubeletFacts): Entries {
    BasicConfig(facts) + VersionConfig(version, facts)
  }

  function DockershimFlags(): seq<string> {
    ["--cni-conf-dir", "--cni-bin-dir", "--cni-cache-dir", "--docker-endpoint",
     "--experimental-dockershim-root-directory", "--image-pull-progress-deadline",
     "--network-plugin", "--network-plugin-mtu", "--non-masquerade-cidr"]
  }

  function RemovedFlags(version: Version): seq<string> {
    When(!Ge(version, V110), ["--pod-max-pids"])
    + When(Ge(version, V112), ["--cadvisor-port"])
    + When(Ge(version, V115B1), ["--allow-privileged"])
    + When(Ge(version, V124A), DockershimFlags())
    + When(Ge(version, V127), ["--master-service-namespace", "--container-runtime"])
  }

  function Invalid(version: Version): seq<string> {
    InvalidFeatureGates(version, [])
  }

  function DefaultGates(version: Version): seq<string> {
    [DefaultGate(version, Some(V1119), "RotateKubeletServerCertificate=true"),
     DefaultGate(version, Some(V120RC0), "ExecProbeTimeout=true"),
     DefaultGate(version, Some(V125), "PodSecurity=true")]
  }

  function KubenetPlugin(facts: KubeletFacts): Entries {
    If(facts.networkPlugin == "kubenet" && facts.networkPolicy != "calico", map[NETWORK_PLUGIN := "kubenet"])
  }

  function ClusterLayers(version: Version, facts: KubeletFacts, isUpgrade: bool): NodeLayers {
    NodeLayers(DefaultConfig(version, facts),
               If(isUpgrade, map[INFRA_IMAGE := Get(DefaultConfig(version, facts), INFRA_IMAGE)])
               + KubenetPlugin(facts) + StaticLinux(facts),
               Some(DefaultGates(version)), isUpgrade && Ge(version, V114),
               map[], map[], ToSet(RemovedFlags(version)), Invalid(version), None)
  }

  function LateConfig(isVHD: bool): Entries {
    If(isVHD, map[PROTECT_KERNEL := "true"])
  }

  function LateForced(isUbuntu: bool): Entries {
    If(isUbuntu, map[RESOLV_CONF := "/run/systemd/resolve/resolv.conf"])
  }

  function MasterLayers(version: Version, facts: KubeletFacts, isUpgrade: bool, cluster: Entries,
                        isVHD: bool, isUbuntu: bool, anyAgentIsLinux: bool): NodeLayers {
    NodeLayers(cluster,
               If(isUpgrade, map[INFRA_IMAGE := Get(cluster, INFRA_IMAGE)])
               + If(facts.useCloudControllerManager, map[CLOUD_PROVIDER := "external"]),
               Some([DefaultGate(version, None, "")]), isUpgrade && Ge(version, V114),
               LateConfig(isVHD), LateForced(isUbuntu), ToSet(RemovedFlags(version)), Invalid(version),
               if anyAgentIsLinux then Some(Taint(MASTER_TAINT, MASTER_TAINT)) else None)
  }

  function PoolLayers(version: Version, facts: KubeletFacts, isUpgrade: bool, cluster: Entries,
                      isWindows: bool, isVHD: bool, isUbuntu: bool): NodeLayers {
    NodeLayers(cluster,
               If(isUpgrade, map[INFRA_IMAGE := Get(cluster, INFRA_IMAGE)])
               + (if isWindows then StaticWindows(facts) else StaticLinux(facts)),
               None, isUpgrade && Ge(version, V114),
               LateConfig(isVHD), LateForced(isUbuntu), ToSet(RemovedFlags(version)), Invalid(version),
               if facts.aadPodIdentityAddon && !isWindows
               then Some(Taint(IDENTITY_TAINT, IDENTITY_TAINT + "=true:NoSchedule")) else None)
  }

  // ---- The code ----

  method RemoveKubeletFlags(config: StringMap, version: Version)
    modifies config
    ensures config.entries == old(config.entries) - ToSet(RemovedFlags(version))
  {
    hide Ge, ToSet, DockershimFlags;
    ghost var before, gone := config.entries, [];
    NothingDropped(before);
    if !Ge(version, V110) {
      gone := Drop(config, before, gone, ["--pod-max-pids"]);
    }
    if Ge(version, V112) {
      gone := Drop(config, before, gone, ["--cadvisor-port"]);
    }
    if Ge(version, V115B1) {
      gone := Drop(config, before, gone, ["--allow-privileged"]);
    }
    assert gone == When(!Ge(version, V110), ["--pod-max-pids"]) + When(Ge(version, V112), ["--cadvisor-port"])
                   + When(Ge(version, V115B1), ["--allow-privileged"]);
    if Ge(version, V124A) {
      gone := Drop(config, before, gone, DockershimFlags());
    }
    if Ge(version, V127) {
      gone := Drop(config, before, gone, ["--master-service-namespace", "--container-runtime"]);
    }
    assert gone == RemovedFlags(version);
  }

  method CheckPidsLimit(config: StringMap)
    modifies config
    ensures config.entries == CheckPids(old(config.entries))
  {
    hide Contains, Atoi;
    ghost var before := config.entries;
    var hasGate := Contains(Get(config.entries, FEATURE_GATES), PIDS_GATE);
    var podMaxPids := Atoi(Get(config.entries, PIDS));
    if podMaxPids == None {
      config.Set(PIDS, "-1");
    } else if !hasGate || podMaxPids.value <= 0 {
      config.Set(PIDS, "-1");
    }
  }

  method EnsureTaint(config: StringMap, taint: Taint)
    modifies config
    ensures config.entries == AddTaint(old(config.entries), taint)
  {
    hide Contains;
    if TAINTS !in config.entries {
      config.Set(TAINTS, taint.full);
    } else if !Contains(config.entries[TAINTS], taint.key) {
      config.Set(TAINTS, config.entries[TAINTS] + "," + taint.full);
    }
  }

  // What the master and every pool go through once their own flags are merged.
  method Finish(config: StringMap, version: Version, checkPids: bool, isVHD: bool, isUbuntu: bool, taint: Option<Taint>)
    modifies config
    ensures var checked := if checkPids then CheckPids(old(config.entries)) else old(config.entries);
            var kept := ((LateConfig(isVHD) + checked) + LateForced(isUbuntu)) - ToSet(RemovedFlags(version));
            var pruned := kept[FEATURE_GATES := Remove(GatesOf(kept), Invalid(version))];
            config.entries == match taint case None => pruned case Some(t) => AddTaint(pruned, t)
  {
    hide ToSet, RemovedFlags, Invalid, Remove, CheckPids, AddTaint;
    if checkPids {
      CheckPidsLimit(config);
    }
    ghost var checked := config.entries;
    if isVHD {
      if PROTECT_KERNEL !in config.entries {
        config.Set(PROTECT_KERNEL, "true");
      }
    }
    assert config.entries == LateConfig(isVHD) + checked;
    if isUbuntu {
      config.Set(RESOLV_CONF, "/run/systemd/resolve/resolv.conf");
    }
    assert config.entries == (LateConfig(isVHD) + checked) + LateForced(isUbuntu);
    RemoveKubeletFlags(config, version);
    RemoveInvalidFeatureGates(config, Invalid(version));
    if taint.Some? {
      EnsureTaint(config, taint.value);
    }
  }

  method ConfigureMaster(config: StringMap, version: Version, facts: KubeletFacts, isUpgrade: bool, cluster: StringMap,
                         isVHD: bool, isUbuntu: bool, anyAgentIsLinux: bool)
    requires config != cluster
    modifies config
    ensures config.entries
         == MasterLayers(version, facts, isUpgrade, cluster.entries, isVHD, isUbuntu, anyAgentIsLinux).Apply(old(config.entries))
  {
    hide ToSet, RemovedFlags, Invalid, Ge, LateConfig, LateForced, NodeLayers.Merged, NodeLayers.Apply, AddTaint, CheckPids, Remove;
    var layers := MasterLayers(version, facts, isUpgrade, cluster.entries, isVHD, isUbuntu, anyAgentIsLinux);
    ghost var before := config.entries;
    MergeMaster(config, version, facts, isUpgrade, cluster, layers);
    Finish(config, version, isUpgrade && Ge(version, V114), isVHD, isUbuntu, layers.taint);
    layers.Steps(before);
  }

  method MergeMaster(config: StringMap, version: Version, facts: KubeletFacts, isUpgrade: bool, cluster: StringMap,
                     ghost layers: NodeLayers)
    requires config != cluster
    requires layers.inherited == cluster.entries && layers.gates == Some([DefaultGate(version, None, "")])
    requires layers.forced == If(isUpgrade, map[INFRA_IMAGE := Get(cluster.entries, INFRA_IMAGE)])
                              + If(facts.useCloudControllerManager, map[CLOUD_PROVIDER := "external"])
    modifies config
    ensures config.entries == layers.Merged(old(config.entries))
  {
    hide Combine;
    ghost var before := config.entries;
    ForceOnMaster(config, facts, isUpgrade, cluster);
    config.FillMissing(cluster.entries);
    FillAfterForce(cluster.entries, before, layers.forced);
    AddDefaultFeatureGates(config, version, None, "");
    assert [GatesOf(layers.Own(before))] + [""] == [GatesOf(layers.Own(before)), ""];
  }

  method ForceOnMaster(config: StringMap, facts: KubeletFacts, isUpgrade: bool, cluster: StringMap)
    requires config != cluster
    modifies config
    ensures config.entries == old(config.entries)
                              + (If(isUpgrade, map[INFRA_IMAGE := Get(cluster.entries, INFRA_IMAGE)])
                                 + If(facts.useCloudControllerManager, map[CLOUD_PROVIDER := "external"]))
  {
    if isUpgrade {
      config.Set(INFRA_IMAGE, Get(cluster.entries, INFRA_IMAGE));
    }
    if facts.useCloudControllerManager {
      config.Set(CLOUD_PROVIDER, "external");
    }
  }

  lemma FillAfterForce(cluster: Entries, own: Entries, forced: Entries)
    ensures cluster + (own + forced) == (cluster + own) + forced
  {
  }

  method ConfigurePool(config: StringMap, version: Version, facts: KubeletFacts, isUpgrade: bool, cluster: StringMap,
                       isWindows: bool, isVHD: bool, isUbuntu: bool)
    requires config != cluster
    modifies config
    ensures config.entries
         == PoolLayers(version, facts, isUpgrade, cluster.entries, isWindows, isVHD, isUbuntu).Apply(old(config.entries))
  {
    hide ToSet, RemovedFlags, Invalid, Ge, LateConfig, LateForced, NodeLayers.Merged, NodeLayers.Apply, AddTaint, CheckPids, Remove,
         StaticLinux, StaticWindows;
    var layers := PoolLayers(version, facts, isUpgrade, cluster.entries, isWindows, isVHD, isUbuntu);
    ghost var before := config.entries;
    MergePool(config, facts, isUpgrade, cluster, isWindows, layers);
    Finish(config, version, isUpgrade && Ge(version, V114), isVHD, isUbuntu, layers.taint);
    layers.Steps(before);
  }

  method MergePool(config: StringMap, facts: KubeletFacts, isUpgrade: bool, cluster: StringMap, isWindows: bool,
                   ghost layers: NodeLayers)
    requires config != cluster
    requires layers.inherited == cluster.entries && layers.gates == None
    requires layers.forced == If(isUpgrade, map[INFRA_IMAGE := Get(cluster.entries, INFRA_IMAGE)])
                              + (if isWindows then StaticWindows(facts) else StaticLinux(facts))
    modifies config
    ensures config.entries == layers.Merged(old(config.entries))
  {
    hide StaticLinux, StaticWindows;
    ghost var before := config.entries;
    if isUpgrade {
      config.Set(INFRA_IMAGE, Get(cluster.entries, INFRA_IMAGE));
    }
    if isWindows {
      config.Overwrite(StaticWindows(facts));
    } else {
      config.Overwrite(StaticLinux(facts));
    }
    assert config.entries == before + layers.forced;
    config.FillMissing(cluster.entries);
    FillAfterForce(cluster.entries, before, layers.forced);
  }

  method ConfigureCluster(config: StringMap, version: Version, facts: KubeletFacts, isUpgrade: bool)
    modifies config
    ensures config.entries == ClusterLayers(version, facts, isUpgrade).Apply(old(config.entries))
  {
    hide ToSet, RemovedFlags, Invalid, Ge, NodeLayers.Merged, NodeLayers.Apply, CheckPids, Remove, StaticLinux, DefaultConfig, DefaultGates;
    ghost var before := config.entries;
    ghost var layers := ClusterLayers(version, facts, isUpgrade);
    MergeCluster(config, version, facts, isUpgrade);
    if isUpgrade && Ge(version, V114) {
      CheckPidsLimit(config);
    }
    ghost var checked := config.entries;
    RemoveKubeletFlags(config, version);
    RemoveInvalidFeatureGates(config, Invalid(version));
    layers.Steps(before);
    assert (map[] + checked) + map[] == checked;
  }

  method MergeCluster(config: StringMap, version: Version, facts: KubeletFacts, isUpgrade: bool)
    modifies config
    ensures config.entries == ClusterLayers(version, facts, isUpgrade).Merged(old(config.entries))
  {
    hide ToSet, RemovedFlags, Invalid, Combine, StaticLinux, DefaultConfig, DefaultGates;
    ghost var before := config.entries;
    ghost var layers := ClusterLayers(version, facts, isUpgrade);
    config.FillMissing(DefaultConfig(version, facts));
    ghost var filled := config.entries;
    if isUpgrade {
      config.Set(INFRA_IMAGE, Get(DefaultConfig(version, facts), INFRA_IMAGE));
    }
    ghost var infra := If(isUpgrade, map[INFRA_IMAGE := Get(DefaultConfig(version, facts), INFRA_IMAGE)]);
    assert config.entries == filled + infra;
    ghost var found := GatesOf(config.entries);
    AddGates(config, version);
    SetNetworkPlugin(config, facts);
    config.Overwrite(StaticLinux(facts));
    ClusterWellFormed(version, facts, isUpgrade);
    GatesBelowForced(filled, infra, KubenetPlugin(facts), StaticLinux(facts), Combine([found] + DefaultGates(version)));
  }

  method SetNetworkPlugin(config: StringMap, facts: KubeletFacts)
    modifies config
    ensures config.entries == old(config.entries) + KubenetPlugin(facts)
  {
    if facts.networkPlugin == "kubenet" {
      if facts.networkPolicy != "calico" {
        config.Set(NETWORK_PLUGIN, "kubenet");
      }
    }
  }

  lemma GatesBelowForced(filled: Entries, infra: Entries, plugin: Entries, static_: Entries, gates: string)
    requires FEATURE_GATES !in infra + plugin + static_
    ensures (filled + infra)[FEATURE_GATES := gates] + plugin + static_
         == (filled + (infra + plugin + static_))[FEATURE_GATES := gates]
    ensures GatesOf(filled + infra) == GatesOf(filled + (infra + plugin + static_))
  {
  }

  method AddGates(config: StringMap, version: Version)
    modifies config
    ensures config.entries == old(config.entries)[FEATURE_GATES := Combine([GatesOf(old(config.entries))] + DefaultGates(version))]
  {
    hide Combine, Ge;
    ghost var found := GatesOf(config.entries);
    ghost var ds := DefaultGates(version);
    AddDefaultFeatureGates(config, version, Some(V1119), "RotateKubeletServerCertificate=true");
    AddDefaultFeatureGates(config, version, Some(V120RC0), "ExecProbeTimeout=true");
    CombineAppend([found, ds[0]], ds[1]);
    AddDefaultFeatureGates(config, version, Some(V125), "PodSecurity=true");
    CombineAppend([found, ds[0], ds[1]], ds[2]);
    assert [found, ds[0]] + [ds[1]] == [found, ds[0], ds[1]];
    assert [found, ds[0], ds[1]] + [ds[2]] == [found] + ds;
  }

  // ---- The layers are well formed ----

  // No map below mentions the gates, the process limit or the taints.
  ghost predicate Ordinary(m: Entries) {
    FEATURE_GATES !in m && PIDS !in m && TAINTS !in m
  }

  lemma CommonOrdinary(facts: KubeletFacts)
    ensures Ordinary(StaticCommon(facts))
  {
    assert |FEATURE_GATES| == 15 && |PIDS| == 14 && |TAINTS| == 22 && TAINTS[2] == 'r' && PIDS[2] == 'p' && FEATURE_GATES[2] == 'f';
  }

  lemma LinuxOrdinary(facts: KubeletFacts)
    ensures Ordinary(StaticLinux(facts))
  {
    hide StaticLinux;
    LinuxLeavesGates(facts);
    LinuxLeavesPids(facts);
    LinuxLeavesTaints(facts);
  }

  lemma LinuxLeavesGates(facts: KubeletFacts)
    ensures FEATURE_GATES !in StaticLinux(facts)
  {
    hide StaticCommon;
    CommonOrdinary(facts);
    assert |FEATURE_GATES| == 15 && FEATURE_GATES[2] == 'f';
  }

  lemma LinuxLeavesPids(facts: KubeletFacts)
    ensures PIDS !in StaticLinux(facts)
  {
    hide StaticCommon;
    CommonOrdinary(facts);
    assert |PIDS| == 14 && PIDS[2] == 'p';
  }

  lemma LinuxLeavesTaints(facts: KubeletFacts)
    ensures TAINTS !in StaticLinux(facts)
  {
    hide StaticCommon;
    CommonOrdinary(facts);
    assert |TAINTS| == 22 && TAINTS[2] == 'r';
  }

  lemma WindowsOrdinary(facts: KubeletFacts)
    ensures Ordinary(StaticWindows(facts))
  {
    hide StaticCommon, WindowsPaths;
    CommonOrdinary(facts);
    PathsOrdinary();
    assert |FEATURE_GATES| == 15 && |PIDS| == 14 && |TAINTS| == 22 && |"--client-ca-file"| == 16;
  }

  lemma PathsOrdinary()
    ensures Ordinary(WindowsPaths())
  {
    hide WindowsLimits;
    LimitsOrdinary();
    assert |FEATURE_GATES| == 15 && |PIDS| == 14 && |TAINTS| == 22 && TAINTS[2] == 'r' && PIDS[2] == 'p' && FEATURE_GATES[2] == 'f';
    assert |"--cloud-config"| == 14 && "--cloud-config"[2] == 'c';
  }

  lemma LimitsOrdinary()
    ensures Ordinary(WindowsLimits())
  {
    assert |FEATURE_GATES| == 15 && |PIDS| == 14 && |TAINTS| == 22 && TAINTS[4] == 'g' && PIDS[2] == 'p' && FEATURE_GATES[2] == 'f';
  }

  lemma RemovedOrdinary(version: Version)
    ensures FEATURE_GATES !in ToSet(RemovedFlags(version)) && TAINTS !in ToSet(RemovedFlags(version))
    ensures Ge(version, V110) ==> PIDS !in ToSet(RemovedFlags(version))
  {
    hide Ge, DockershimFlags;
    DockershimOrdinary();
    assert |FEATURE_GATES| == 15 && |PIDS| == 14 && |TAINTS| == 22 && FEATURE_GATES[2] == 'f';
  }

  lemma DockershimOrdinary()
    ensures FEATURE_GATES !in DockershimFlags() && TAINTS !in DockershimFlags() && PIDS !in DockershimFlags()
  {
    assert |FEATURE_GATES| == 15 && |PIDS| == 14 && |TAINTS| == 22 && FEATURE_GATES[2] == 'f' && PIDS[2] == 'p' && TAINTS[2] == 'r';
  }

  lemma SmallOrdinary(key: string, val: string)
    requires key in {INFRA_IMAGE, NETWORK_PLUGIN, CLOUD_PROVIDER, PROTECT_KERNEL, RESOLV_CONF}
    ensures Ordinary(map[key := val])
  {
    assert |FEATURE_GATES| == 15 && |PIDS| == 14 && |TAINTS| == 22;
    assert |INFRA_IMAGE| == 27 && |NETWORK_PLUGIN| == 16 && |CLOUD_PROVIDER| == 16 && |PROTECT_KERNEL| == 25 && |RESOLV_CONF| == 13;
  }

  lemma ClusterWellFormed(version: Version, facts: KubeletFacts, isUpgrade: bool)
    ensures ClusterLayers(version, facts, isUpgrade).WellFormed()
  {
    hide StaticLinux, DefaultConfig, RemovedFlags, Invalid, Ge, ToSet;
    SmallOrdinary(INFRA_IMAGE, Get(DefaultConfig(version, facts), INFRA_IMAGE));
    SmallOrdinary(NETWORK_PLUGIN, "kubenet");
    LinuxOrdinary(facts);
    RemovedOrdinary(version);
  }

  lemma LateOrdinary(isVHD: bool, isUbuntu: bool)
    ensures Ordinary(LateConfig(isVHD)) && Ordinary(LateForced(isUbuntu))
  {
    SmallOrdinary(PROTECT_KERNEL, "true");
    SmallOrdinary(RESOLV_CONF, "/run/systemd/resolve/resolv.conf");
  }

  lemma MasterWellFormed(version: Version, facts: KubeletFacts, isUpgrade: bool, cluster: Entries,
                         isVHD: bool, isUbuntu: bool, anyAgentIsLinux: bool)
    ensures MasterLayers(version, facts, isUpgrade, cluster, isVHD, isUbuntu, anyAgentIsLinux).WellFormed()
  {
    hide RemovedFlags, Invalid, Ge, ToSet, LateConfig, LateForced, Contains;
    SmallOrdinary(INFRA_IMAGE, Get(cluster, INFRA_IMAGE));
    SmallOrdinary(CLOUD_PROVIDER, "external");
    LateOrdinary(isVHD, isUbuntu);
    RemovedOrdinary(version);
    ContainsAt("", MASTER_TAINT, "");
    assert "" + MASTER_TAINT + "" == MASTER_TAINT;
  }

  lemma PoolWellFormed(version: Version, facts: KubeletFacts, isUpgrade: bool, cluster: Entries,
                       isWindows: bool, isVHD: bool, isUbuntu: bool)
    ensures PoolLayers(version, facts, isUpgrade, cluster, isWindows, isVHD, isUbuntu).WellFormed()
  {
    hide RemovedFlags, Invalid, Ge, ToSet, LateConfig, LateForced, Contains, StaticLinux, StaticWindows;
    SmallOrdinary(INFRA_IMAGE, Get(cluster, INFRA_IMAGE));
    LinuxOrdinary(facts);
    WindowsOrdinary(facts);
    LateOrdinary(isVHD, isUbuntu);
    RemovedOrdinary(version);
    ContainsAt("", IDENTITY_TAINT, "=true:NoSchedule");
    assert "" + IDENTITY_TAINT + "=true:NoSchedule" == IDENTITY_TAINT + "=true:NoSchedule";
  }

  // ---- The process-limit gate is never lost where gates are printed before the check ----

  lemma InvalidNotPidsGate(version: Version, gate: string)
    requires gate in ToSet(Invalid(version))
    ensures !HasSuffix(gate, "SupportPodPidsLimit")
  {
    hide Ge, InvalidSince122, InvalidSince127, InvalidSince128, InvalidSince129;
    if HasSuffix(gate, "SupportPodPidsLimit") {
      assert gate[|gate| - 1] == gate[|gate| - 19..][18] == 't';
      assert gate[|gate| - 2] == gate[|gate| - 19..][17] == 'i';
      EndsOtherwise122(gate);
      EndsOtherwise127(gate);
      EndsOtherwise128(gate);
      EndsOtherwise129(gate);
    }
  }

  lemma EndsOtherwise122(gate: string)
    requires |gate| >= 2 && gate[|gate| - 1] == 't' && gate[|gate| - 2] == 'i'
    ensures gate !in InvalidSince122()
  {
  }

  lemma EndsOtherwise127(gate: string)
    requires |gate| >= 2 && gate[|gate| - 1] == 't' && gate[|gate| - 2] == 'i'
    ensures gate !in InvalidSince127()
  {
  }

  lemma EndsOtherwise128(gate: string)
    requires |gate| >= 2 && gate[|gate| - 1] == 't' && gate[|gate| - 2] == 'i'
    ensures gate !in InvalidSince128()
  {
  }

  lemma EndsOtherwise129(gate: string)
    requires |gate| >= 2 && gate[|gate| - 1] == 't' && gate[|gate| - 2] == 'i'
    ensures gate !in InvalidSince129()
  {
  }

  lemma MergedNeverLose(layers: NodeLayers, version: Version, m: Entries)
    requires layers.gates.Some? && layers.invalid == Invalid(version)
    ensures !LosesPids(layers, m)
  {
    hide Contains, HasSuffix, Invalid, Parse, Print, NodeLayers.Own;
    if layers.checkPids && KeepsPids(layers.Merged(m)) {
      var ds, found := layers.gates.value, GatesOf(layers.Own(m));
      var merged := Combine([found] + ds);
      layers.MergedAt(m, FEATURE_GATES);
      MeaningClean([found] + ds);
      MeaningClean(ds);
      forall gate | gate in ToSet(layers.invalid)
        ensures !HasSuffix(gate, "SupportPodPidsLimit")
      {
        InvalidNotPidsGate(version, gate);
      }
      assert PIDS_GATE == "SupportPodPidsLimit" + "=" + "true";
      FoundAgain(Meaning(ds), Meaning([found] + ds), ToSet(layers.invalid), "SupportPodPidsLimit", "true");
      CombineRoundTrip([found] + ds);
      RemoveRoundTrip(merged, layers.invalid);
      MeaningConcat([Remove(merged, layers.invalid)], ds);
      MeaningOne(Remove(merged, layers.invalid));
    }
  }

  // ---- The whole configuration ----

  predicate AnyAgentIsLinux(pools: seq<NodeProfile>) {
    exists i :: 0 <= i < |pools| && pools[i].isLinux
  }

  // No two profiles share a flag map.
  ghost predicate Apart(profiles: seq<NodeProfile>)
    reads profiles
  {
    && (forall i, j :: 0 <= i < j < |profiles| ==> profiles[i] != profiles[j])
    && (forall i, j :: 0 <= i < j < |profiles| && profiles[i].kubeletConfig != null
          ==> profiles[i].kubeletConfig != profiles[j].kubeletConfig)
  }

  // The flags of pool p after configuring, given the configured cluster flags.
  ghost function PoolConfig(version: Version, facts: KubeletFacts, isUpgrade: bool, cluster: Entries, p: NodeProfile, user: Entries): Entries {
    PoolLayers(version, facts, isUpgrade, cluster, p.isWindows, p.isVHD, p.isUbuntu).Apply(user)
  }

  ghost function MasterConfig(version: Version, facts: KubeletFacts, isUpgrade: bool, cluster: Entries, p: NodeProfile,
                              anyAgentIsLinux: bool, user: Entries): Entries {
    MasterLayers(version, facts, isUpgrade, cluster, p.isVHD, p.isUbuntu, anyAgentIsLinux).Apply(user)
  }

  ghost function ClusterConfig(version: Version, facts: KubeletFacts, isUpgrade: bool, user: Entries): Entries {
    ClusterLayers(version, facts, isUpgrade).Apply(user)
  }

  // if p.KubeletConfig == nil { p.KubeletConfig = make(map[string]string) }
  method EnsureConfig(p: NodeProfile)
    modifies p
    ensures p.kubeletConfig != null
    ensures old(p.kubeletConfig) != null ==> p.kubeletConfig == old(p.kubeletConfig)
    ensures old(p.kubeletConfig) == null ==> fresh(p.kubeletConfig)
    ensures EntriesOf(p.kubeletConfig) == old(EntriesOf(p.kubeletConfig))
  {
    if p.kubeletConfig == null {
      p.kubeletConfig := new StringMap(map[]);
    }
  }

  // The profile's flags are what configuring makes of the given ones.
  ghost predicate PoolDone(version: Version, facts: KubeletFacts, isUpgrade: bool, cluster: Entries, p: NodeProfile, user: Entries)
    reads p, p.kubeletConfig
  {
    p.kubeletConfig != null && p.kubeletConfig.entries == PoolConfig(version, facts, isUpgrade, cluster, p, user)
  }

  ghost predicate MasterDone(version: Version, facts: KubeletFacts, isUpgrade: bool, cluster: Entries, p: NodeProfile,
                             anyAgentIsLinux: bool, user: Entries)
    reads p, p.kubeletConfig
  {
    && p.kubeletConfig != null
    && p.kubeletConfig.entries == MasterConfig(version, facts, isUpgrade, cluster, p, anyAgentIsLinux, user)
  }

  // The flags of all profiles.
  ghost function AllEntries(profiles: seq<NodeProfile>): (r: seq<Entries>)
    reads profiles, MapsOf(profiles)
    ensures |r| == |profiles| && forall i :: 0 <= i < |profiles| ==> r[i] == EntriesOf(profiles[i].kubeletConfig)
  {
    seq(|profiles|, i requires 0 <= i < |profiles| reads profiles, MapsOf(profiles) => EntriesOf(profiles[i].kubeletConfig))
  }

  ghost function MapsOf(profiles: seq<NodeProfile>): set<StringMap?>
    reads profiles
  {
    set i | 0 <= i < |profiles| :: profiles[i].kubeletConfig
  }

  ghost predicate PoolsDone(version: Version, facts: KubeletFacts, isUpgrade: bool, cluster: Entries, pools: seq<NodeProfile>,
                            users: seq<Entries>)
    reads pools, MapsOf(pools)
  {
    |users| == |pools| && forall i :: 0 <= i < |pools| ==> PoolDone(version, facts, isUpgrade, cluster, pools[i], users[i])
  }

  method ConfigureAgent(p: NodeProfile, version: Version, facts: KubeletFacts, isUpgrade: bool, cluster: StringMap)
    requires p.kubeletConfig != cluster
    modifies p, p.kubeletConfig
    ensures p.kubeletConfig != null
    ensures old(p.kubeletConfig) != null ==> p.kubeletConfig == old(p.kubeletConfig)
    ensures old(p.kubeletConfig) == null ==> fresh(p.kubeletConfig)
    ensures p.kubeletConfig.entries
         == PoolConfig(version, facts, isUpgrade, cluster.entries, p, old(EntriesOf(p.kubeletConfig)))
  {
    hide PoolLayers, NodeLayers.Apply;
    EnsureConfig(p);
    ConfigurePool(p.kubeletConfig, version, facts, isUpgrade, cluster, p.isWindows, p.isVHD, p.isUbuntu);
  }

  method ConfigureAgents(pools: seq<NodeProfile>, version: Version, facts: KubeletFacts, isUpgrade: bool, cluster: StringMap)
    requires Apart(pools) && forall i :: 0 <= i < |pools| ==> pools[i].kubeletConfig != cluster
    modifies pools, MapsOf(pools)
    ensures PoolsDone(version, facts, isUpgrade, cluster.entries, pools, old(AllEntries(pools)))
  {
    hide PoolConfig;
    for n := 0 to |pools|
      invariant forall i :: n <= i < |pools| ==> pools[i].kubeletConfig == old(pools[i].kubeletConfig)
      invariant forall i :: n <= i < |pools| ==> EntriesOf(pools[i].kubeletConfig) == old(EntriesOf(pools[i].kubeletConfig))
      invariant forall i :: 0 <= i < n ==> (old(pools[i].kubeletConfig) != null ==> pools[i].kubeletConfig == old(pools[i].kubeletConfig))
      invariant forall i :: 0 <= i < n ==> (old(pools[i].kubeletConfig) == null ==> fresh(pools[i].kubeletConfig))
      invariant forall i :: 0 <= i < n ==>
                  PoolDone(version, facts, isUpgrade, cluster.entries, pools[i], old(EntriesOf(pools[i].kubeletConfig)))
      invariant cluster.entries == old(cluster.entries)
    {
      ConfigureAgent(pools[n], version, facts, isUpgrade, cluster);
    }
  }

  method ConfigureControlPlane(master: NodeProfile, version: Version, facts: KubeletFacts, isUpgrade: bool,
                               cluster: StringMap, anyAgentIsLinux: bool)
    requires master.kubeletConfig != cluster
    modifies master, master.kubeletConfig
    ensures master.kubeletConfig != null
    ensures old(master.kubeletConfig) != null ==> master.kubeletConfig == old(master.kubeletConfig)
    ensures old(master.kubeletConfig) == null ==> fresh(master.kubeletConfig)
    ensures master.kubeletConfig.entries
         == MasterConfig(version, facts, isUpgrade, cluster.entries, master, anyAgentIsLinux, old(EntriesOf(master.kubeletConfig)))
  {
    hide MasterLayers, NodeLayers.Apply;
    EnsureConfig(master);
    ConfigureMaster(master.kubeletConfig, version, facts, isUpgrade, cluster, master.isVHD, master.isUbuntu, anyAgentIsLinux);
  }

  method ConfigureShared(cluster: NodeProfile, version: Version, facts: KubeletFacts, isUpgrade: bool)
    modifies cluster, cluster.kubeletConfig
    ensures cluster.kubeletConfig != null
    ensures old(cluster.kubeletConfig) != null ==> cluster.kubeletConfig == old(cluster.kubeletConfig)
    ensures old(cluster.kubeletConfig) == null ==> fresh(cluster.kubeletConfig)
    ensures cluster.kubeletConfig.entries == ClusterConfig(version, facts, isUpgrade, old(EntriesOf(cluster.kubeletConfig)))
  {
    hide ClusterLayers, NodeLayers.Apply;
    EnsureConfig(cluster);
    ConfigureCluster(cluster.kubeletConfig, version, facts, isUpgrade);
  }

  function MapOf(p: NodeProfile?): StringMap?
    reads p
  {
    if p == null then null else p.kubeletConfig
  }

  // No node profile and no flag map of one occurs twice, and none is the given map.
  ghost predicate SeparateNodes(cluster: StringMap?, master: NodeProfile?, pools: seq<NodeProfile>)
    reads master, pools
  {
    && Apart(pools) && (master != null ==> master !in pools)
    && (cluster != null ==> MapOf(master) != cluster && forall i :: 0 <= i < |pools| ==> pools[i].kubeletConfig != cluster)
    && (MapOf(master) != null ==> forall i :: 0 <= i < |pools| ==> pools[i].kubeletConfig != MapOf(master))
  }

  ghost predicate Separate(cluster: NodeProfile, master: NodeProfile?, pools: seq<NodeProfile>)
    reads cluster, master, pools
  {
    cluster != master && cluster !in pools && SeparateNodes(cluster.kubeletConfig, master, pools)
  }

  method ConfigureMasters(master: NodeProfile?, version: Version, facts: KubeletFacts, isUpgrade: bool,
                          cluster: StringMap, anyAgentIsLinux: bool)
    requires MapOf(master) != cluster
    modifies master, MapOf(master)
    ensures master != null ==>
              && (old(master.kubeletConfig) != null ==> master.kubeletConfig == old(master.kubeletConfig))
              && (old(master.kubeletConfig) == null ==> fresh(master.kubeletConfig))
              && MasterDone(version, facts, isUpgrade, cluster.entries, master, anyAgentIsLinux, old(EntriesOf(MapOf(master))))
  {
    hide MasterConfig;
    if master != null {
      ConfigureControlPlane(master, version, facts, isUpgrade, cluster, anyAgentIsLinux);
    }
  }

  method ConfigureNodes(version: Version, facts: KubeletFacts, isUpgrade: bool,
                        cluster: StringMap, master: NodeProfile?, pools: seq<NodeProfile>)
    requires SeparateNodes(cluster, master, pools)
    modifies master, MapOf(master)
    modifies pools, MapsOf(pools)
    ensures cluster.entries == old(cluster.entries)
    ensures master != null ==>
              MasterDone(version, facts, isUpgrade, cluster.entries, master, AnyAgentIsLinux(pools), old(EntriesOf(MapOf(master))))
    ensures PoolsDone(version, facts, isUpgrade, cluster.entries, pools, old(AllEntries(pools)))
  {
    hide MasterConfig, PoolConfig, AnyAgentIsLinux;
    ConfigureMasters(master, version, facts, isUpgrade, cluster, AnyAgentIsLinux(pools));
    label configured:
    assert Apart(pools);
    assert forall i :: 0 <= i < |pools| ==> EntriesOf(pools[i].kubeletConfig) == old(EntriesOf(pools[i].kubeletConfig));
    ConfigureAgents(pools, version, facts, isUpgrade, cluster);
    assert MapOf(master) == old@configured(MapOf(master)) && EntriesOf(MapOf(master)) == old@configured(EntriesOf(MapOf(master)));
  }

  // Each profile ends up with its own flags as a function of what it had and of the cluster's
  // flags; in particular configuring one pool writes to no other pool's map.
  method SetKubeletConfig(version: Version, facts: KubeletFacts, isUpgrade: bool,
                          cluster: NodeProfile, master: NodeProfile?, pools: seq<NodeProfile>)
    requires Separate(cluster, master, pools)
    modifies cluster, cluster.kubeletConfig, master, MapOf(master)
    modifies pools, MapsOf(pools)
    ensures cluster.kubeletConfig != null
    ensures master != null ==>
              MasterDone(version, facts, isUpgrade, cluster.kubeletConfig.entries, master, AnyAgentIsLinux(pools),
                         old(EntriesOf(MapOf(master))))
    ensures PoolsDone(version, facts, isUpgrade, cluster.kubeletConfig.entries, pools, old(AllEntries(pools)))
    ensures cluster.kubeletConfig.entries == ClusterConfig(version, facts, isUpgrade, old(EntriesOf(cluster.kubeletConfig)))
  {
    hide ClusterConfig, MasterConfig, PoolConfig, AnyAgentIsLinux;
    ConfigureShared(cluster, version, facts, isUpgrade);
    assert EntriesOf(MapOf(master)) == old(EntriesOf(MapOf(master)));
    assert forall i :: 0 <= i < |pools| ==> EntriesOf(pools[i].kubeletConfig) == old(EntriesOf(pools[i].kubeletConfig));
    ConfigureNodes(version, facts, isUpgrade, cluster.kubeletConfig, master, pools);
  }

  // ---- Taints ----

  // A taint is added after the others, unless its key occurs among them.
  function Tainted(before: Option<string>, key: string, full: string): Option<string> {
    match before
    case None => Some(full)
    case Some(taints) => Some(if Contains(taints, key) then taints else taints + "," + full)
  }

  // The masters get the control plane taint exactly if there is a Linux agent.
  lemma MasterTaints(version: Version, facts: KubeletFacts, isUpgrade: bool, cluster: Entries, p: NodeProfile,
                     anyAgentIsLinux: bool, user: Entries)
    ensures Get?(MasterConfig(version, facts, isUpgrade, cluster, p, anyAgentIsLinux, user), "--register-with-taints")
         == if anyAgentIsLinux
            then Tainted(Get?(cluster + user, "--register-with-taints"), "node-role.kubernetes.io/control-plane=true:NoSchedule",
                         "node-role.kubernetes.io/control-plane=true:NoSchedule")
            else Get?(cluster + user, "--register-with-taints")
  {
    hide NodeLayers.Apply, RemovedFlags, Invalid, Ge, Contains, LateConfig, LateForced, ToSet;
    var layers := MasterLayers(version, facts, isUpgrade, cluster, p.isVHD, p.isUbuntu, anyAgentIsLinux);
    MasterWellFormed(version, facts, isUpgrade, cluster, p.isVHD, p.isUbuntu, anyAgentIsLinux);
    layers.TaintsFlag(user);
    InheritedTaints(layers, user);
  }

  // A pool gets the taint of the pod identity addon exactly if that is enabled and the pool
  // is not a Windows pool.
  lemma PoolTaints(version: Version, facts: KubeletFacts, isUpgrade: bool, cluster: Entries, p: NodeProfile, user: Entries)
    ensures Get?(PoolConfig(version, facts, isUpgrade, cluster, p, user), "--register-with-taints")
         == if facts.aadPodIdentityAddon && !p.isWindows
            then Tainted(Get?(cluster + user, "--register-with-taints"), "node.kubernetes.io/aad-pod-identity-not-ready",
                         "node.kubernetes.io/aad-pod-identity-not-ready" + "=true:NoSchedule")
            else Get?(cluster + user, "--register-with-taints")
  {
    hide NodeLayers.Apply, RemovedFlags, Invalid, Ge, Contains, LateConfig, LateForced, ToSet, StaticLinux, StaticWindows;
    var layers := PoolLayers(version, facts, isUpgrade, cluster, p.isWindows, p.isVHD, p.isUbuntu);
    PoolWellFormed(version, facts, isUpgrade, cluster, p.isWindows, p.isVHD, p.isUbuntu);
    layers.TaintsFlag(user);
    InheritedTaints(layers, user);
  }

  lemma InheritedTaints(layers: NodeLayers, user: Entries)
    requires layers.WellFormed() && TAINTS !in layers.late
    ensures layers.Plain(user, TAINTS) == Get?(layers.inherited + user, TAINTS)
  {
  }

  // ---- Configuring twice ----

  lemma ClusterTwice(version: Version, facts: KubeletFacts, isUpgrade: bool, user: Entries)
    ensures var once := ClusterConfig(version, facts, isUpgrade, user);
            ClusterConfig(version, facts, isUpgrade, once) == once
  {
    var layers := ClusterLayers(version, facts, isUpgrade);
    hide NodeLayers.Apply, LosesPids, DefaultConfig, StaticLinux, RemovedFlags, Invalid, Ge;
    ClusterWellFormed(version, facts, isUpgrade);
    MergedNeverLose(layers, version, user);
    Twice(layers, user);
  }

  lemma MasterTwice(version: Version, facts: KubeletFacts, isUpgrade: bool, cluster: Entries, p: NodeProfile,
                    anyAgentIsLinux: bool, user: Entries)
    ensures var once := MasterConfig(version, facts, isUpgrade, cluster, p, anyAgentIsLinux, user);
            MasterConfig(version, facts, isUpgrade, cluster, p, anyAgentIsLinux, once) == once
  {
    var layers := MasterLayers(version, facts, isUpgrade, cluster, p.isVHD, p.isUbuntu, anyAgentIsLinux);
    hide NodeLayers.Apply, LosesPids, RemovedFlags, Invalid, Ge;
    MasterWellFormed(version, facts, isUpgrade, cluster, p.isVHD, p.isUbuntu, anyAgentIsLinux);
    MergedNeverLose(layers, version, user);
    Twice(layers, user);
  }

  // What a pool has at first: its own gate string and limit, or else the cluster's.
  ghost function Inherited(cluster: Entries, user: Entries, key: string): string {
    Get(cluster + user, key)
  }

  // The process-limit gate is among the gates that the string binds.
  ghost predicate BindsPidsGate(gates: string) {
    exists key :: key in Parse(gates) && HasSuffix(key, "SupportPodPidsLimit") && "true" <= Parse(gates)[key]
  }

  lemma PrunedPidsGate(gates: string, version: Version)
    ensures Contains(Remove(gates, Invalid(version)), PIDS_GATE) <==> BindsPidsGate(gates)
  {
    hide Invalid, Contains, Parse, ToSet, HasSuffix;
    var m := Parse(gates);
    var pruned := m - ToSet(Invalid(version));
    ParseClean(gates);
    assert PIDS_GATE == "SupportPodPidsLimit" + "=" + "true";
    ContainsPrinted(pruned, "SupportPodPidsLimit", "true");
    forall key | key in m && HasSuffix(key, "SupportPodPidsLimit")
      ensures key in pruned && pruned[key] == m[key]
    {
      if key in ToSet(Invalid(version)) {
        InvalidNotPidsGate(version, key);
      }
    }
  }

  // The upgrade finds the process-limit gate in the pool's raw gate string and keeps a positive
  // limit, although the string does not bind the gate.
  ghost predicate RawGateLost(version: Version, isUpgrade: bool, cluster: Entries, user: Entries) {
    && isUpgrade && Ge(version, V114)
    && Atoi(Inherited(cluster, user, PIDS)).Some? && Atoi(Inherited(cluster, user, PIDS)).value > 0
    && Contains(Inherited(cluster, user, FEATURE_GATES), PIDS_GATE)
    && !BindsPidsGate(Inherited(cluster, user, FEATURE_GATES))
  }

  lemma PoolLosesPids(version: Version, facts: KubeletFacts, isUpgrade: bool, cluster: Entries,
                      isWindows: bool, isVHD: bool, isUbuntu: bool, user: Entries)
    ensures LosesPids(PoolLayers(version, facts, isUpgrade, cluster, isWindows, isVHD, isUbuntu), user)
            <==> RawGateLost(version, isUpgrade, cluster, user)
  {
    var layers := PoolLayers(version, facts, isUpgrade, cluster, isWindows, isVHD, isUbuntu);
    hide NodeLayers.Own, RemovedFlags, Invalid, Contains, Remove, Atoi, LateConfig, LateForced, StaticLinux, StaticWindows, ToSet, Ge;
    PoolWellFormed(version, facts, isUpgrade, cluster, isWindows, isVHD, isUbuntu);
    OwnFlags(layers, user);
    RemovedOrdinary(version);
    PidsStayUnlessOld(version);
    PrunedPidsGate(Inherited(cluster, user, FEATURE_GATES), version);
  }

  lemma OwnFlags(layers: NodeLayers, user: Entries)
    requires layers.WellFormed()
    ensures GatesOf(layers.Own(user)) == Inherited(layers.inherited, user, FEATURE_GATES)
    ensures Get(layers.Own(user), PIDS) == Inherited(layers.inherited, user, PIDS)
  {
  }

  // Configuring a pool twice equals configuring it once, exactly unless that happens.
  lemma PoolTwice(version: Version, facts: KubeletFacts, isUpgrade: bool, cluster: Entries, p: NodeProfile, user: Entries)
    ensures var once := PoolConfig(version, facts, isUpgrade, cluster, p, user);
            PoolConfig(version, facts, isUpgrade, cluster, p, once) == once
            <==> !RawGateLost(version, isUpgrade, cluster, user)
  {
    hide NodeLayers.Apply, PoolLayers, LosesPids, RawGateLost;
    PoolWellFormed(version, facts, isUpgrade, cluster, p.isWindows, p.isVHD, p.isUbuntu);
    PoolLosesPids(version, facts, isUpgrade, cluster, p.isWindows, p.isVHD, p.isUbuntu, user);
    Twice(PoolLayers(version, facts, isUpgrade, cluster, p.isWindows, p.isVHD, p.isUbuntu), user);
  }

  // It does happen: the raw string contains the gate inside a binding the parser drops.
  lemma PoolLosesGate()
    ensures RawGateLost(Release(1, 20, 0), true, map[],
                        map[FEATURE_GATES := "SupportPodPidsLimit=true=", PIDS := "7"])
  {
    hide Contains, Parse;
    var raw := "SupportPodPidsLimit=true=";
    Names();
    ContainsAt("", PIDS_GATE, "=");
    assert "" + PIDS_GATE + "=" == raw;
    assert Digits("7", 0) == Digits("7"[1..], 7) == Some(7);
    ParseDropped(raw);
  }

  lemma ThreeParts()
    ensures Split("SupportPodPidsLimit=true=", '=') == ["SupportPodPidsLimit", "true", ""]
  {
    hide Split;
    var name, val := "SupportPodPidsLimit", "true";
    assert "SupportPodPidsLimit=true=" == name + ['='] + (val + ['='] + "");
    SplitThree(name, val);
  }

  lemma SplitThree(name: string, val: string)
    requires '=' !in name && '=' !in val
    ensures Split(name + ['='] + (val + ['='] + ""), '=') == [name, val, ""]
  {
    SplitHead(name, val + ['='] + "", '=');
    SplitHead(val, "", '=');
  }

  lemma ParseDropped(raw: string)
    requires raw == "SupportPodPidsLimit=true="
    ensures Parse(raw) == map[]
  {
    hide Split;
    ThreeParts();
    assert raw[0] == 'S' && |raw| == 25 && raw[24] == '=';
    assert TrimLeft(raw) == raw && TrimRight(raw) == raw;
    assert PairOf(raw) == None;
    NoComma(raw);
    assert ApplyItems(map[], [raw]) == ApplyItems(ApplyItem(map[], raw), []);
  }

  lemma NoComma(raw: string)
    requires raw == "SupportPodPidsLimit=true="
    ensures Split(raw, ',') == [raw]
  {
    assert ',' !in raw;
  }

  lemma PidsStayUnlessOld(version: Version)
    ensures Ge(version, V114) ==> Ge(version, V110)
  {
  }

  // Outside upgrades, configuring twice equals configuring once on every map.
  lemma ConfigureTwice(version: Version, facts: KubeletFacts, cluster: Entries, master: NodeProfile, anyAgentIsLinux: bool,
                       masterUser: Entries, pools: seq<NodeProfile>, users: seq<Entries>)
    requires |users| == |pools|
    ensures var c := ClusterConfig(version, facts, false, cluster);
            && ClusterConfig(version, facts, false, c) == c
            && (var m := MasterConfig(version, facts, false, c, master, anyAgentIsLinux, masterUser);
                MasterConfig(version, facts, false, c, master, anyAgentIsLinux, m) == m)
            && (forall i :: 0 <= i < |pools| ==>
                  var p := PoolConfig(version, facts, false, c, pools[i], users[i]);
                  PoolConfig(version, facts, false, c, pools[i], p) == p)
  {
    hide ClusterConfig, MasterConfig, PoolConfig;
    var c := ClusterConfig(version, facts, false, cluster);
    ClusterTwice(version, facts, false, cluster);
    MasterTwice(version, facts, false, c, master, anyAgentIsLinux, masterUser);
    forall i | 0 <= i < |pools|
      ensures var p := PoolConfig(version, facts, false, c, pools[i], users[i]);
              PoolConfig(version, facts, false, c, pools[i], p) == p
    {
      PoolTwice(version, facts, false, c, pools[i], users[i]);
    }
  }
}
