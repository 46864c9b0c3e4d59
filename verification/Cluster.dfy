// The parts of api.KubernetesConfig the defaulting functions write, and what they read about
// the rest of the cluster.
module Cluster {
  import opened GoMaps
  import opened Gates
  import Strings
  import opened Options

  datatype Facts = Facts(
    clusterSubnet: string,
    serviceCidr: string,
    isAzureCNI: bool,
    isAzureCNIDualStack: bool,
    requireRouteTable: bool,
    masterDnsPrefix: Option<string>,     // None when there is no master profile
    useCloudControllerManager: bool,
    isAzureStack: bool,
    rbacEnabled: bool)
  {
    // The IPv6 part of a dual-stack subnet, otherwise the subnet itself.
    function ClusterCidr(): string {
      var subnets := Strings.Split(clusterSubnet, ',');
      if isAzureCNIDualStack && |subnets| > 1 then subnets[1] else clusterSubnet
    }

    function AllocateNodeCidrs(): string {
      FormatBool(!isAzureCNI || isAzureCNIDualStack)
    }
  }

  function FormatBool(b: bool): string {
    if b then "true" else "false"
  }

  // A dual-stack cluster gives its components the second of its subnets, any other cluster
  // all of them; a single subnet is taken as it is.
  lemma SubnetTaken(facts: Facts, first: string, second: string)
    requires ',' !in first && ',' !in second
    ensures facts.clusterSubnet == first + "," + second
        ==> facts.ClusterCidr() == if facts.isAzureCNIDualStack then second else facts.clusterSubnet
    ensures facts.clusterSubnet == first ==> facts.ClusterCidr() == first
  {
    Strings.SplitHead(first, second, ',');
    Strings.SplitJoin([second], ',');
    Strings.SplitJoin([first], ',');
  }

  // Azure's own network hands out the node addresses, except for dual stack.
  lemma NodeCidrs(facts: Facts)
    ensures facts.AllocateNodeCidrs() in {"true", "false"}
    ensures facts.AllocateNodeCidrs() == "false" <==> facts.isAzureCNI && !facts.isAzureCNIDualStack
  {
  }

  function ClusterName(facts: Facts): Entries {
    match facts.masterDnsPrefix
    case None => map[]
    case Some(prefix) => map["--cluster-name" := prefix]
  }

  // The entries of a map that may be nil.
  ghost function EntriesOf(m: StringMap?): Entries
    reads m
  {
    if m == null then map[] else m.entries
  }

  class KubernetesConfig {
    var schedulerConfig: StringMap?
    var controllerManagerConfig: StringMap?
    var cloudControllerManagerConfig: StringMap?
    var apiServerConfig: StringMap?

    constructor ()
      ensures schedulerConfig == null && controllerManagerConfig == null
      ensures cloudControllerManagerConfig == null && apiServerConfig == null
    {
      schedulerConfig, controllerManagerConfig := null, null;
      cloudControllerManagerConfig, apiServerConfig := null, null;
    }
  }
}
