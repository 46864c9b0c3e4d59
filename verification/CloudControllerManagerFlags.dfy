// The flags of the cloud controller manager that depend on the cluster, one by one.
module CloudControllerManagerFlags {
  import opened GoMaps
  import opened Gates
  import opened Options
  import opened Versions
  import opened Layering
  import opened Cluster
  import opened CloudControllerManager

  lemma InStatic(facts: Facts)
    ensures Get?(StaticConfig(facts), "--allocate-node-cidrs")
         == Some(if !facts.isAzureCNI || facts.isAzureCNIDualStack then "true" else "false")
    ensures Get?(StaticConfig(facts), "--configure-cloud-routes") == Some(if facts.requireRouteTable then "true" else "false")
    ensures Get?(StaticConfig(facts), "--cluster-cidr") == Some(facts.ClusterCidr())
  {
    assert |"--v"| == 3 && |"--kubeconfig"| == 12 && |"--controllers"| == 13 && |"--cloud-config"| == 14
      && |"--cluster-cidr"| == 14 && |"--cluster-name"| == 14 && |"--leader-elect"| == 14 && |"--cloud-provider"| == 16
      && |"--allocate-node-cidrs"| == 21 && |"--configure-cloud-routes"| == 24
      && |"--route-reconciliation-period"| == 29;
    assert "--cloud-config"[4] == 'o' && "--cluster-cidr"[2] == 'c' && "--cluster-cidr"[4] == 'u'
      && "--cluster-cidr"[10] == 'c' && "--cluster-name"[10] == 'n' && "--leader-elect"[2] == 'l';
  }

  lemma PeriodIsStatic(facts: Facts)
    ensures Get?(StaticConfig(facts), "--route-reconciliation-period") == Some("10s")
    ensures Get?(StaticConfig(facts), "--cluster-name") == facts.masterDnsPrefix
  {
    assert |"--v"| == 3 && |"--kubeconfig"| == 12 && |"--controllers"| == 13 && |"--cloud-config"| == 14
      && |"--cluster-cidr"| == 14 && |"--cluster-name"| == 14 && |"--leader-elect"| == 14 && |"--cloud-provider"| == 16
      && |"--allocate-node-cidrs"| == 21 && |"--configure-cloud-routes"| == 24
      && |"--route-reconciliation-period"| == 29;
    assert "--cloud-config"[4] == 'o' && "--cluster-cidr"[10] == 'c' && "--cluster-name"[2] == 'c'
      && "--cluster-name"[4] == 'u' && "--cluster-name"[10] == 'n' && "--leader-elect"[2] == 'l';
  }

  // What the network decides is forced, and so is the period; the cluster's name is, if there
  // is a master profile.
  lemma FinalFlags(version: Version, facts: Facts, user: Entries, config: Entries)
    requires config == Config(version, facts, user)
    ensures Get?(config, "--allocate-node-cidrs")
         == Some(if !facts.isAzureCNI || facts.isAzureCNIDualStack then "true" else "false")
    ensures Get?(config, "--configure-cloud-routes") == Some(if facts.requireRouteTable then "true" else "false")
    ensures Get?(config, "--cluster-cidr") == Some(facts.ClusterCidr())
    ensures Get?(config, "--route-reconciliation-period") == Some("10s")
    ensures Get?(config, "--cluster-name") == if facts.masterDnsPrefix.Some? then facts.masterDnsPrefix else Get?(user, "--cluster-name")
  {
    hide Layers.Apply, StaticConfig, InvalidFeatureGates;
    assert |"--allocate-node-cidrs"| == 21 && |"--configure-cloud-routes"| == 24 && |"--cluster-cidr"| == 14
      && "--cluster-cidr"[4] == 'u' && "--cluster-cidr"[10] == 'c' && |"--route-reconciliation-period"| == 29
      && |"--cluster-name"| == 14 && "--cluster-name"[4] == 'u' && "--cluster-name"[10] == 'n';
    LeavesGates(version, facts);
    InStatic(facts);
    PeriodIsStatic(facts);
    forall key | key in {"--allocate-node-cidrs", "--configure-cloud-routes", "--cluster-cidr", "--route-reconciliation-period",
                         "--cluster-name"}
      ensures Get?(config, key)
           == if key in StaticConfig(facts) then Some(StaticConfig(facts)[key])
              else if key in user then Some(user[key]) else Get?(DefaultConfig(), key)
    {
      LayersFor(version, facts).ApplyFlag(user, key);
    }
  }

  // The user's gates minus the ones that the version removed.
  lemma FinalGates(version: Version, facts: Facts, user: Entries, config: Entries)
    requires config == Config(version, facts, user)
    ensures GatesOf(config) == Print(Parse(GatesOf(config)))
    ensures Parse(GatesOf(config)) == Parse(GatesOf(user)) - ToSet(InvalidFeatureGates(version, []))
  {
    hide Layers.Apply, StaticConfig, InvalidFeatureGates, Parse, Print, ToSet;
    LeavesGates(version, facts);
    LayersFor(version, facts).ApplyGates(user);
    assert map[] + Parse(GatesOf(user)) == Parse(GatesOf(user));
  }
}
