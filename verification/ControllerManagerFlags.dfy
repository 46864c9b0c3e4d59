// The flags of the controller manager that depend on the version or the cluster, one by one.
module ControllerManagerFlags {
  import opened GoMaps
  import opened Gates
  import opened Options
  import opened Versions
  import opened Layering
  import opened Cluster
  import opened ControllerManager

  const SINCE_1_9 := Release(1, 9, 0)
  const SINCE_1_10 := Release(1, 10, 0)
  const SINCE_1_19 := Release(1, 19, 0)
  const SINCE_1_24 := Release(1, 24, 0)
  const SINCE_1_25 := Release(1, 25, 0)
  const SINCE_1_27 := Release(1, 27, 0)

  // ---- The tables ----

  // The keys below are told apart from those of a table by their lengths and single letters.

  lemma NotInBase(facts: Facts, key: string)
    requires |key| !in {3, 12, 13, 14, 21, 24, 26, 27, 34} || (|key| == 14 && key[10] == 'n')
            || (|key| == 14 && key[4] == 'o' && key[2] == 'c') || (|key| == 21 && key[2] == 'd')
            || (|key| == 27 && key[2] == 'n')
    ensures key !in BaseConfig(facts)
  {
  }

  lemma InBase(facts: Facts)
    ensures Get?(BaseConfig(facts), "--allocate-node-cidrs")
         == Some(if !facts.isAzureCNI || facts.isAzureCNIDualStack then "true" else "false")
    ensures Get?(BaseConfig(facts), "--configure-cloud-routes") == Some(if facts.requireRouteTable then "true" else "false")
    ensures Get?(BaseConfig(facts), "--cluster-cidr") == Some(facts.ClusterCidr())
  {
    assert |"--v"| == 3 && |"--kubeconfig"| == 12 && |"--controllers"| == 13 && |"--cluster-cidr"| == 14
      && |"--leader-elect"| == 14 && |"--root-ca-file"| == 14 && |"--allocate-node-cidrs"| == 21
      && |"--configure-cloud-routes"| == 24 && |"--cluster-signing-key-file"| == 26
      && |"--cluster-signing-cert-file"| == 27 && |"--service-account-private-key-file"| == 34;
    assert "--cluster-cidr"[2] == 'c' && "--leader-elect"[2] == 'l' && "--root-ca-file"[2] == 'r';
  }

  lemma InDefaults(facts: Facts)
    ensures Get?(DefaultConfig(facts), "--node-monitor-grace-period") == Some(if facts.isAzureStack then "5m" else "40s")
    ensures Get?(DefaultConfig(facts), "--pod-eviction-timeout") == Some(if facts.isAzureStack then "5m" else "5m0s")
    ensures Get?(DefaultConfig(facts), "--route-reconciliation-period") == Some(if facts.isAzureStack then "1m" else "10s")
    ensures Get?(DefaultConfig(facts), "--use-service-account-credentials") == Some("false")
  {
    assert |"--profiling"| == 11 && |"--bind-address"| == 14 && |"--tls-min-version"| == 17
      && |"--pod-eviction-timeout"| == 22 && |"--node-monitor-grace-period"| == 27
      && |"--route-reconciliation-period"| == 29 && |"--terminated-pod-gc-threshold"| == 29
      && |"--use-service-account-credentials"| == 33;
    assert "--route-reconciliation-period"[2] == 'r' && "--terminated-pod-gc-threshold"[2] == 't';
  }

  lemma NotInDefaults(facts: Facts, key: string)
    requires |key| !in {11, 14, 17, 22, 27, 29, 33} || (|key| == 14 && key[2] == 'c')
            || (|key| == 22 && key[2] == 'e') || (|key| == 22 && key[2] == 'r')
    ensures key !in DefaultConfig(facts)
  {
  }

  lemma NotRemoved(version: Version, key: string)
    requires |key| !in {6, 9, 19, 21, 22} || (|key| == 21 && key[2] == 'a')
    ensures key !in ToSet(RemovedFlags(version))
  {
  }

  predicate Gone(version: Version, key: string) {
    || (Ge(version, SINCE_1_24) && key in {"--address", "--port"})
    || (Ge(version, SINCE_1_25) && key in {"--deleting-pods-qps", "--deleting-pods-burst", "--register-retry-count"})
    || (Ge(version, SINCE_1_27) && key in {"--enable-taint-manager", "--pod-eviction-timeout"})
  }

  lemma Removed(version: Version, key: string)
    ensures key in ToSet(RemovedFlags(version)) <==> Gone(version, key)
  {
    hide Ge;
  }

  lemma InCloudConfig(facts: Facts)
    ensures Get?(CloudConfig(facts), "--cloud-provider") == Some(if facts.useCloudControllerManager then "external" else "azure")
    ensures Get?(CloudConfig(facts), "--cloud-config")
         == if facts.useCloudControllerManager then None else Some("/etc/kubernetes/azure.json")
    ensures "--cluster-name" !in CloudConfig(facts) && "--cloud-provider" !in ClusterName(facts) && "--cloud-config" !in ClusterName(facts)
  {
    assert |"--cloud-config"| == 14 && |"--cluster-name"| == 14 && |"--cloud-provider"| == 16;
    assert "--cloud-config"[4] == 'o' && "--cluster-name"[4] == 'u';
  }

  lemma NotConditional(facts: Facts, key: string)
    requires key !in {"--cluster-name", "--cloud-provider", "--cloud-config"}
    ensures key !in ClusterName(facts) && key !in CloudConfig(facts)
  {
  }

  // ---- The final flags ----

  lemma FlagOf(version: Version, facts: Facts, user: Entries, config: Entries, key: string)
    requires config == Config(version, facts, user) && key != FEATURE_GATES
    ensures Get?(config, key)
         == if key in RbacConfig(facts) then Some(RbacConfig(facts)[key])
            else if key in StaticConfig(facts) then Some(StaticConfig(facts)[key])
            else if key in ToSet(RemovedFlags(version)) then None
            else if key in user then Some(user[key])
            else Get?(DefaultConfig(facts), key)
  {
    hide Layers.Apply, StaticConfig, DefaultConfig, RemovedFlags, ToSet, DefaultGates, Invalid, RbacConfig;
    LeavesGates(version, facts);
    LayersFor(version, facts).ApplyFlag(user, key);
  }

  // What the network and the cloud decide is forced.
  lemma FinalNetwork(version: Version, facts: Facts, user: Entries, config: Entries)
    requires config == Config(version, facts, user)
    ensures Get?(config, "--allocate-node-cidrs") == Some(if !facts.isAzureCNI || facts.isAzureCNIDualStack then "true" else "false")
    ensures Get?(config, "--configure-cloud-routes") == Some(if facts.requireRouteTable then "true" else "false")
    ensures Get?(config, "--cluster-cidr") == Some(facts.ClusterCidr())
  {
    hide Config, BaseConfig, ClusterName, CloudConfig, DefaultConfig, RemovedFlags, ToSet;
    assert |"--allocate-node-cidrs"| == 21 && |"--configure-cloud-routes"| == 24 && |"--cluster-cidr"| == 14
      && "--cluster-cidr"[10] == 'c';
    InBase(facts);
    forall key | key in {"--allocate-node-cidrs", "--configure-cloud-routes", "--cluster-cidr"}
      ensures Get?(config, key) == Get?(BaseConfig(facts), key)
    {
      NotConditional(facts, key);
      FlagOf(version, facts, user, config, key);
    }
  }

  lemma FinalCloud(version: Version, facts: Facts, user: Entries, config: Entries)
    requires config == Config(version, facts, user)
    ensures Get?(config, "--cloud-provider") == Some(if facts.useCloudControllerManager then "external" else "azure")
    ensures Get?(config, "--cloud-config")
         == if facts.useCloudControllerManager then Get?(user, "--cloud-config") else Some("/etc/kubernetes/azure.json")
    ensures Get?(config, "--cluster-name") == if facts.masterDnsPrefix.Some? then facts.masterDnsPrefix else Get?(user, "--cluster-name")
  {
    hide Config, BaseConfig, CloudConfig, DefaultConfig, RemovedFlags, ToSet;
    assert |"--cluster-name"| == 14 && "--cluster-name"[10] == 'n' && "--cluster-name"[4] == 'u'
      && |"--cloud-provider"| == 16 && |"--cloud-config"| == 14 && "--cloud-config"[4] == 'o'
      && "--cloud-config"[2] == 'c';
    InCloudConfig(facts);
    forall key | key in {"--cloud-provider", "--cloud-config", "--cluster-name"}
      ensures Get?(config, key) == if key in StaticConfig(facts) then Some(StaticConfig(facts)[key]) else Get?(user, key)
      ensures key !in BaseConfig(facts)
    {
      FlagOf(version, facts, user, config, key);
      NotInBase(facts, key);
      NotInDefaults(facts, key);
      NotRemoved(version, key);
    }
  }

  // What the user sets, or else a default that depends on the cloud or on the use of roles.
  lemma FinalDefaults(version: Version, facts: Facts, user: Entries, config: Entries)
    requires config == Config(version, facts, user)
    ensures Get?(config, "--node-monitor-grace-period")
         == UserOr(user, "--node-monitor-grace-period", if facts.isAzureStack then "5m" else "40s")
    ensures Get?(config, "--route-reconciliation-period")
         == UserOr(user, "--route-reconciliation-period", if facts.isAzureStack then "1m" else "10s")
    ensures Get?(config, "--pod-eviction-timeout")
         == if Ge(version, SINCE_1_27) then None
            else UserOr(user, "--pod-eviction-timeout", if facts.isAzureStack then "5m" else "5m0s")
    ensures Get?(config, "--use-service-account-credentials")
         == if facts.rbacEnabled then Some("true") else UserOr(user, "--use-service-account-credentials", "false")
  {
    hide Config, BaseConfig, ClusterName, CloudConfig, DefaultConfig, RemovedFlags, ToSet, Ge;
    assert |"--node-monitor-grace-period"| == 27 && "--node-monitor-grace-period"[2] == 'n'
      && |"--route-reconciliation-period"| == 29 && "--route-reconciliation-period"[2] == 'r'
      && |"--pod-eviction-timeout"| == 22 && "--pod-eviction-timeout"[2] == 'p'
      && |"--use-service-account-credentials"| == 33;
    InDefaults(facts);
    forall key | key in {"--node-monitor-grace-period", "--route-reconciliation-period", "--pod-eviction-timeout",
                         "--use-service-account-credentials"}
      ensures key !in StaticConfig(facts)
    {
      NotInBase(facts, key);
      NotConditional(facts, key);
    }
    FlagOf(version, facts, user, config, "--node-monitor-grace-period");
    FlagOf(version, facts, user, config, "--route-reconciliation-period");
    FlagOf(version, facts, user, config, "--pod-eviction-timeout");
    FlagOf(version, facts, user, config, "--use-service-account-credentials");
    Removed(version, "--pod-eviction-timeout");
    NotRemoved(version, "--node-monitor-grace-period");
    NotRemoved(version, "--route-reconciliation-period");
    NotRemoved(version, "--use-service-account-credentials");
  }

  function UserOr(user: Entries, key: string, default: string): Option<string> {
    Some(if key in user then user[key] else default)
  }

  // The user's word is dropped once the flag is removed.
  lemma FinalRemoved(version: Version, facts: Facts, user: Entries, config: Entries, key: string)
    requires config == Config(version, facts, user)
    requires key in {"--address", "--port", "--deleting-pods-qps", "--deleting-pods-burst", "--register-retry-count",
                     "--enable-taint-manager"}
    ensures Get?(config, key)
         == if Ge(version, if key in {"--address", "--port"} then SINCE_1_24
                           else if key == "--enable-taint-manager" then SINCE_1_27 else SINCE_1_25)
            then None else Get?(user, key)
  {
    hide Config, BaseConfig, ClusterName, CloudConfig, DefaultConfig, RemovedFlags, ToSet, Ge;
    assert |"--address"| == 9 && |"--port"| == 6 && |"--deleting-pods-qps"| == 19 && |"--deleting-pods-burst"| == 21
      && "--deleting-pods-burst"[2] == 'd' && |"--register-retry-count"| == 22 && "--register-retry-count"[2] == 'r'
      && |"--enable-taint-manager"| == 22 && "--enable-taint-manager"[2] == 'e';
    NotInBase(facts, key);
    NotConditional(facts, key);
    NotInDefaults(facts, key);
    Removed(version, key);
    FlagOf(version, facts, user, config, key);
  }

  // The user's gates over the default ones, minus the ones that the version removed.
  lemma FinalGates(version: Version, facts: Facts, user: Entries, config: Entries, gate: string)
    requires config == Config(version, facts, user)
    ensures GatesOf(config) == Print(Parse(GatesOf(config)))
    ensures Get?(Parse(GatesOf(config)), gate)
         == if gate in ToSet(InvalidFeatureGates(version, ["LegacyServiceAccountTokenNoAutoGeneration"])) then None
            else if gate in Parse(GatesOf(user)) then Some(Parse(GatesOf(user))[gate])
            else if gate == "ServiceNodeExclusion" && Ge(version, SINCE_1_9) && !Ge(version, SINCE_1_19) then Some("true")
            else if gate == "LocalStorageCapacityIsolation" && Ge(version, SINCE_1_10) then Some("true")
            else if gate == "LegacyServiceAccountTokenNoAutoGeneration" && Ge(version, SINCE_1_24)
                    && !Ge(version, SINCE_1_27) then Some("false")
            else if gate == "PodSecurity" && Ge(version, SINCE_1_25) then Some("true")
            else None
  {
    hide Layers.Apply, StaticConfig, DefaultConfig, RemovedFlags, ToSet, DefaultGates, InvalidFeatureGates, RbacConfig, Parse, Print,
      Meaning, Ge;
    LeavesGates(version, facts);
    LayersFor(version, facts).ApplyGates(user);
    DefaultGateFor(version, gate);
  }
}
