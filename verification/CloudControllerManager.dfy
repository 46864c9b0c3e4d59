// pkg/api/defaults-cloud-controller-manager.go
module CloudControllerManager {
  import opened GoMaps
  import opened Gates
  import opened Versions
  import opened Layering
  import opened Cluster

  function StaticConfig(facts: Facts): Entries {
    map["--allocate-node-cidrs" := facts.AllocateNodeCidrs(),
        "--configure-cloud-routes" := FormatBool(facts.requireRouteTable),
        "--cloud-provider" := "azure",
        "--cloud-config" := "/etc/kubernetes/azure.json",
        "--cluster-cidr" := facts.ClusterCidr(),
        "--kubeconfig" := "/var/lib/kubelet/kubeconfig",
        "--leader-elect" := "true",
        "--route-reconciliation-period" := "10s",
        "--v" := "2",
        "--controllers" := "*,-cloud-node"]
    + ClusterName(facts)
  }

  function DefaultConfig(): Entries {
    map["--route-reconciliation-period" := "10s"]
  }

  function LayersFor(version: Version, facts: Facts): Layers {
    Layers(DefaultConfig(), {}, [], StaticConfig(facts), InvalidFeatureGates(version, []))
  }

  // The cloud-controller-manager flags as a function of version, cluster and user flags.
  ghost function Config(version: Version, facts: Facts, user: Entries): Entries {
    LayersFor(version, facts).Apply(user)
  }

  lemma LeavesGates(version: Version, facts: Facts)
    ensures LayersFor(version, facts).LeavesGates()
  {
    hide StaticConfig;
    StaticLeavesGates(facts);
    assert |FEATURE_GATES| == 15;
  }

  lemma StaticLeavesGates(facts: Facts)
    ensures FEATURE_GATES !in StaticConfig(facts)
  {
    assert FEATURE_GATES[2] == 'f';
  }

  // Merging nothing before removing is the same as removing.
  lemma NoDefaultGates(layers: Layers, user: Entries)
    requires layers.removed == {} && layers.gates == []
    requires FEATURE_GATES !in layers.forced
    ensures var all := (layers.defaults + user) + layers.forced;
            layers.Apply(user) == all[FEATURE_GATES := Remove(GatesOf(all), layers.invalid)]
  {
    hide Combine, Remove;
    layers.Steps(user);
    var filled := layers.defaults + user;
    assert filled - {} == filled;
    assert [GatesOf(filled)] + [] == [GatesOf(filled)];
    RemoveCombined(GatesOf(filled), layers.invalid);
    var all := filled + layers.forced;
    var gated := filled[FEATURE_GATES := Combine([GatesOf(filled)])] + layers.forced;
    assert gated[FEATURE_GATES := Remove(GatesOf(all), layers.invalid)]
        == all[FEATURE_GATES := Remove(GatesOf(all), layers.invalid)];
  }

  lemma RemoveCombined(input: string, keys: seq<string>)
    ensures Remove(Combine([input]), keys) == Remove(input, keys)
  {
    hide Combine, Parse;
    CanonicalForm(input, input);
  }

  method SetCloudControllerManagerConfig(k: KubernetesConfig, version: Version, facts: Facts)
    modifies k`cloudControllerManagerConfig, k.cloudControllerManagerConfig
    ensures k.cloudControllerManagerConfig != null
    ensures old(k.cloudControllerManagerConfig) != null
            ==> k.cloudControllerManagerConfig == old(k.cloudControllerManagerConfig)
    ensures k.cloudControllerManagerConfig.entries
         == Config(version, facts, old(EntriesOf(k.cloudControllerManagerConfig)))
  {
    hide Layers.Apply, DefaultConfig, StaticConfig, InvalidFeatureGates, Remove;
    ghost var user := EntriesOf(k.cloudControllerManagerConfig);
    if k.cloudControllerManagerConfig == null {
      k.cloudControllerManagerConfig := new StringMap(DefaultConfig());
    } else {
      k.cloudControllerManagerConfig.FillMissing(DefaultConfig());
    }
    var config := k.cloudControllerManagerConfig;
    assert config.entries == DefaultConfig() + user;
    config.Overwrite(StaticConfig(facts));
    RemoveInvalidFeatureGates(config, InvalidFeatureGates(version, []));
    LeavesGates(version, facts);
    NoDefaultGates(LayersFor(version, facts), user);
  }

  // Configuring at an older version first and then at a newer one gives exactly what
  // configuring at the newer version gives.
  lemma UpgradeAbsorbs(older: Version, newer: Version, facts: Facts, user: Entries)
    requires Ge(newer, older)
    ensures Config(newer, facts, Config(older, facts, user)) == Config(newer, facts, user)
  {
    hide Layers.Apply, InvalidFeatureGates;
    LeavesGates(older, facts);
    LeavesGates(newer, facts);
    InvalidGatesGrow(older, newer, []);
    Absorption(LayersFor(older, facts), LayersFor(newer, facts), user);
  }
}
