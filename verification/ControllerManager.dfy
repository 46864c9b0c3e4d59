// pkg/api/defaults-controller-manager.go
module ControllerManager {
  import opened GoMaps
  import opened Gates
  import opened Options
  import opened Versions
  import opened Layering
  import opened Cluster

  const V109 := Release(1, 9, 0)
  const V110 := Release(1, 10, 0)
  const V119 := Release(1, 19, 0)
  const V124 := Release(1, 24, 0)

  const NODE_EXCLUSION := "ServiceNodeExclusion"
  const STORAGE_ISOLATION := "LocalStorageCapacityIsolation"
  const NO_TOKENS := "LegacyServiceAccountTokenNoAutoGeneration"

  function BaseConfig(facts: Facts): Entries {
    map["--kubeconfig" := "/var/lib/kubelet/kubeconfig",
        "--allocate-node-cidrs" := facts.AllocateNodeCidrs(),
        "--configure-cloud-routes" := FormatBool(facts.requireRouteTable),
        "--cluster-cidr" := facts.ClusterCidr(),
        "--root-ca-file" := "/etc/kubernetes/certs/ca.crt",
        "--cluster-signing-cert-file" := "/etc/kubernetes/certs/ca.crt",
        "--cluster-signing-key-file" := "/etc/kubernetes/certs/ca.key",
        "--service-account-private-key-file" := "/etc/kubernetes/certs/apiserver.key",
        "--leader-elect" := "true",
        "--v" := "2",
        "--controllers" := "*,bootstrapsigner,tokencleaner"]
  }

  function CloudConfig(facts: Facts): Entries {
    if facts.useCloudControllerManager then map["--cloud-provider" := "external"]
    else map["--cloud-provider" := "azure", "--cloud-config" := "/etc/kubernetes/azure.json"]
  }

  function StaticConfig(facts: Facts): Entries {
    BaseConfig(facts) + ClusterName(facts) + CloudConfig(facts)
  }

  function RbacConfig(facts: Facts): Entries {
    if facts.rbacEnabled then map["--use-service-account-credentials" := "true"] else map[]
  }

  function DefaultConfig(facts: Facts): Entries {
    map["--bind-address" := "127.0.0.1",
        "--node-monitor-grace-period" := if facts.isAzureStack then "5m" else "40s",
        "--pod-eviction-timeout" := if facts.isAzureStack then "5m" else "5m0s",
        "--route-reconciliation-period" := if facts.isAzureStack then "1m" else "10s",
        "--terminated-pod-gc-threshold" := "5000",
        "--tls-min-version" := "VersionTLS12",
        "--use-service-account-credentials" := "false",
        "--profiling" := "false"]
  }

  function RemovedFlags(version: Version): seq<string> {
    When(Ge(version, V124), ["--address", "--port"])
    + When(Ge(version, V125), ["--deleting-pods-qps", "--deleting-pods-burst", "--register-retry-count"])
    + When(Ge(version, V127), ["--enable-taint-manager", "--pod-eviction-timeout"])
  }

  // One string per call of addDefaultFeatureGates.
  function DefaultGates(version: Version): seq<string> {
    When(!Ge(version, V119), [DefaultGate(version, Some(V109), "ServiceNodeExclusion=true")])
    + [DefaultGate(version, Some(V110), "LocalStorageCapacityIsolation=true")]
    + When(!Ge(version, V127), [DefaultGate(version, Some(V124), "LegacyServiceAccountTokenNoAutoGeneration=false")])
    + [DefaultGate(version, Some(V125), "PodSecurity=true")]
  }

  function Invalid(version: Version): seq<string> {
    InvalidFeatureGates(version, [NO_TOKENS])
  }

  function LayersFor(version: Version, facts: Facts): Layers {
    Layers(DefaultConfig(facts), ToSet(RemovedFlags(version)), DefaultGates(version),
           StaticConfig(facts) + RbacConfig(facts), Invalid(version))
  }

  // The controller-manager flags as a function of version, cluster and user flags.
  ghost function Config(version: Version, facts: Facts, user: Entries): Entries {
    LayersFor(version, facts).Apply(user)
  }

  method AddGates(config: StringMap, version: Version)
    modifies config
    ensures config.entries == old(config.entries)[FEATURE_GATES := Combine([GatesOf(old(config.entries))] + DefaultGates(version))]
  {
    hide Combine, DefaultGate, Ge;
    ghost var user := GatesOf(config.entries);
    ghost var merged := [user];
    if !Ge(version, V119) {
      AddDefaultFeatureGates(config, version, Some(V109), "ServiceNodeExclusion=true");
      merged := [user, DefaultGate(version, Some(V109), "ServiceNodeExclusion=true")];
    }
    ghost var d := DefaultGate(version, Some(V110), "LocalStorageCapacityIsolation=true");
    AddDefaultFeatureGates(config, version, Some(V110), "LocalStorageCapacityIsolation=true");
    if !Ge(version, V119) {
      CombineAppend(merged, d);
    } else {
      assert [user, d] == merged + [d];
    }
    merged := merged + [d];
    assert GatesOf(config.entries) == Combine(merged);
    if !Ge(version, V127) {
      d := DefaultGate(version, Some(V124), "LegacyServiceAccountTokenNoAutoGeneration=false");
      AddDefaultFeatureGates(config, version, Some(V124), "LegacyServiceAccountTokenNoAutoGeneration=false");
      CombineAppend(merged, d);
      merged := merged + [d];
    }
    d := DefaultGate(version, Some(V125), "PodSecurity=true");
    AddDefaultFeatureGates(config, version, Some(V125), "PodSecurity=true");
    CombineAppend(merged, d);
    merged := merged + [d];
    assert merged == [user] + DefaultGates(version);
  }

  method DropRemovedFlags(config: StringMap, version: Version)
    modifies config
    ensures config.entries == old(config.entries) - ToSet(RemovedFlags(version))
  {
    if Ge(version, V124) {
      config.DeleteAll(["--address", "--port"]);
    }
    if Ge(version, V125) {
      config.DeleteAll(["--deleting-pods-qps", "--deleting-pods-burst", "--register-retry-count"]);
    }
    if Ge(version, V127) {
      config.DeleteAll(["--enable-taint-manager", "--pod-eviction-timeout"]);
    }
  }

  method SetControllerManagerConfig(k: KubernetesConfig, version: Version, facts: Facts)
    modifies k`controllerManagerConfig, k.controllerManagerConfig
    ensures k.controllerManagerConfig != null
    ensures old(k.controllerManagerConfig) != null ==> k.controllerManagerConfig == old(k.controllerManagerConfig)
    ensures k.controllerManagerConfig.entries
         == Config(version, facts, old(EntriesOf(k.controllerManagerConfig)))
  {
    hide RemovedFlags, DefaultGates, StaticConfig, DefaultConfig, Invalid, Combine, Remove, Layers.Apply;
    ghost var user := EntriesOf(k.controllerManagerConfig);
    if k.controllerManagerConfig == null {
      k.controllerManagerConfig := new StringMap(DefaultConfig(facts));
    } else {
      k.controllerManagerConfig.FillMissing(DefaultConfig(facts));
    }
    var config := k.controllerManagerConfig;
    assert config.entries == DefaultConfig(facts) + user;
    DropRemovedFlags(config, version);
    AddGates(config, version);
    OverwriteStatic(config, facts);
    RemoveInvalidFeatureGates(config, Invalid(version));
    LayersFor(version, facts).Steps(user);
  }

  method OverwriteStatic(config: StringMap, facts: Facts)
    modifies config
    ensures config.entries == old(config.entries) + (StaticConfig(facts) + RbacConfig(facts))
  {
    hide StaticConfig;
    config.Overwrite(StaticConfig(facts));
    if facts.rbacEnabled {
      config.Set("--use-service-account-credentials", "true");
    }
  }

  // ---- When upgrading leaves a trace ----

  lemma LeavesGates(version: Version, facts: Facts)
    ensures LayersFor(version, facts).LeavesGates()
  {
    hide StaticConfig, RbacConfig, DefaultConfig, RemovedFlags;
    StaticLeavesGates(facts);
    RemovedLeaveGates(version);
  }

  lemma RemovedLeaveGates(version: Version)
    ensures FEATURE_GATES !in ToSet(RemovedFlags(version))
  {
    assert |FEATURE_GATES| == 15;
  }

  lemma StaticLeavesGates(facts: Facts)
    ensures FEATURE_GATES !in StaticConfig(facts) + RbacConfig(facts)
    ensures FEATURE_GATES !in DefaultConfig(facts)
  {
  }

  lemma RemovedFlagsGrow(older: Version, newer: Version)
    requires Ge(newer, older)
    ensures ToSet(RemovedFlags(older)) <= ToSet(RemovedFlags(newer))
  {
    forall threshold | threshold in {V124, V125, V127} && Ge(older, threshold)
      ensures Ge(newer, threshold)
    {
      GeMonotone(older, newer, threshold);
    }
    WhenGrow4(Ge(older, V124), Ge(newer, V124), ["--address", "--port"],
              Ge(older, V125), Ge(newer, V125), ["--deleting-pods-qps", "--deleting-pods-burst", "--register-retry-count"],
              Ge(older, V127), Ge(newer, V127), ["--enable-taint-manager", "--pod-eviction-timeout"],
              false, false, []);
  }

  lemma ParsedGates()
    ensures Parse("") == map[]
    ensures Parse("ServiceNodeExclusion=true") == map[NODE_EXCLUSION := "true"]
    ensures Parse("LocalStorageCapacityIsolation=true") == map[STORAGE_ISOLATION := "true"]
    ensures Parse("LegacyServiceAccountTokenNoAutoGeneration=false") == map[NO_TOKENS := "false"]
    ensures Parse("PodSecurity=true") == map[POD_SECURITY := "true"]
  {
    hide Parse;
    ParseEmpty();
    ParsedNodeExclusion();
    ParsedStorageIsolation();
    ParsedNoTokens();
    ParsedPodSecurity();
  }

  lemma ParsedNodeExclusion()
    ensures Parse("ServiceNodeExclusion=true") == map[NODE_EXCLUSION := "true"]
  {
    hide Parse;
    ParseBinding(NODE_EXCLUSION, "true");
    assert NODE_EXCLUSION + "=" + "true" == "ServiceNodeExclusion=true";
  }

  lemma ParsedStorageIsolation()
    ensures Parse("LocalStorageCapacityIsolation=true") == map[STORAGE_ISOLATION := "true"]
  {
    hide Parse;
    ParseBinding(STORAGE_ISOLATION, "true");
    assert STORAGE_ISOLATION + "=" + "true" == "LocalStorageCapacityIsolation=true";
  }

  lemma ParsedNoTokens()
    ensures Parse("LegacyServiceAccountTokenNoAutoGeneration=false") == map[NO_TOKENS := "false"]
  {
    hide Parse;
    ParseBinding(NO_TOKENS, "false");
    assert NO_TOKENS + "=" + "false" == "LegacyServiceAccountTokenNoAutoGeneration=false";
  }

  function One(condition: bool, gate: string, val: string): Entries {
    if condition then map[gate := val] else map[]
  }

  lemma MeaningWhen(condition: bool, input: string)
    ensures Meaning(When(condition, [input])) == if condition then Parse(input) else map[]
  {
    MeaningOne(input);
  }

  lemma DefaultGatesMeaning(version: Version)
    ensures Meaning(DefaultGates(version))
         == One(Ge(version, V125), POD_SECURITY, "true")
            + One(!Ge(version, V127) && Ge(version, V124), NO_TOKENS, "false")
            + One(Ge(version, V110), STORAGE_ISOLATION, "true")
            + One(!Ge(version, V119) && Ge(version, V109), NODE_EXCLUSION, "true")
  {
    hide Parse, Ge, Meaning;
    var a := DefaultGate(version, Some(V109), "ServiceNodeExclusion=true");
    var b := DefaultGate(version, Some(V110), "LocalStorageCapacityIsolation=true");
    var c := DefaultGate(version, Some(V124), "LegacyServiceAccountTokenNoAutoGeneration=false");
    var d := DefaultGate(version, Some(V125), "PodSecurity=true");
    ParsedGates();
    MeaningWhen(!Ge(version, V119), a);
    MeaningWhen(!Ge(version, V127), c);
    MeaningOne(b);
    MeaningOne(d);
    MeaningConcat(When(!Ge(version, V119), [a]) + [b] + When(!Ge(version, V127), [c]), [d]);
    MeaningConcat(When(!Ge(version, V119), [a]) + [b], When(!Ge(version, V127), [c]));
    MeaningConcat(When(!Ge(version, V119), [a]), [b]);
    UnionAssociates(Meaning([d]), Meaning(When(!Ge(version, V127), [c])), Meaning([b]) + Meaning(When(!Ge(version, V119), [a])));
    UnionAssociates(Meaning([d]) + Meaning(When(!Ge(version, V127), [c])), Meaning([b]), Meaning(When(!Ge(version, V119), [a])));
  }

  lemma NodeExclusionStaysValid(version: Version)
    ensures NODE_EXCLUSION !in ToSet(Invalid(version))
    ensures Ge(version, V127) ==> NO_TOKENS in ToSet(Invalid(version))
  {
    NotListed();
  }

  lemma NotListed()
    ensures NODE_EXCLUSION !in InvalidSince122() && NODE_EXCLUSION !in InvalidSince127() && NODE_EXCLUSION != NO_TOKENS
    ensures NODE_EXCLUSION !in InvalidSince128()
    ensures NODE_EXCLUSION !in InvalidSince129()
  {
    NotListed127();
    NotListed128();
    NotListed129();
    assert |NODE_EXCLUSION| == 20 && |NO_TOKENS| == 41 && |"VolumeSnapshotDataSource"| == 24;
  }

  lemma NotListed127()
    ensures NODE_EXCLUSION !in InvalidSince127()
  {
    assert NODE_EXCLUSION[0] == 'S' && NODE_EXCLUSION[1] == 'e';
  }

  lemma NotListed128()
    ensures NODE_EXCLUSION !in InvalidSince128()
  {
    assert NODE_EXCLUSION[0] == 'S' && NODE_EXCLUSION[7] == 'N';
  }

  lemma NotListed129()
    ensures NODE_EXCLUSION !in InvalidSince129()
  {
    assert NODE_EXCLUSION[0] == 'S' && NODE_EXCLUSION[2] == 'r';
  }

  lemma GateNamesDistinct()
    ensures NODE_EXCLUSION != STORAGE_ISOLATION && NODE_EXCLUSION != NO_TOKENS && NODE_EXCLUSION != POD_SECURITY
    ensures STORAGE_ISOLATION != NO_TOKENS && STORAGE_ISOLATION != POD_SECURITY && NO_TOKENS != POD_SECURITY
  {
    assert |NODE_EXCLUSION| == 20 && |STORAGE_ISOLATION| == 29 && |NO_TOKENS| == 41 && |POD_SECURITY| == 11;
  }

  lemma DefaultGateFor(version: Version, gate: string)
    ensures Get?(Meaning(DefaultGates(version)), gate) ==
            if gate == NODE_EXCLUSION && Ge(version, V109) && !Ge(version, V119) then Some("true")
            else if gate == STORAGE_ISOLATION && Ge(version, V110) then Some("true")
            else if gate == NO_TOKENS && Ge(version, V124) && !Ge(version, V127) then Some("false")
            else if gate == POD_SECURITY && Ge(version, V125) then Some("true")
            else None
  {
    hide Ge, Meaning, DefaultGates;
    GateNamesDistinct();
    DefaultGatesMeaning(version);
  }

  lemma OnlyNodeExclusionSticks(older: Version, newer: Version, facts: Facts, user: Entries, gate: string)
    requires Ge(newer, older)
    ensures Sticks(LayersFor(older, facts), LayersFor(newer, facts), user, gate)
            <==> gate == NODE_EXCLUSION && gate !in user && Ge(older, V109) && !Ge(older, V119) && Ge(newer, V119)
  {
    hide Ge, Meaning, DefaultGates, Invalid, StaticConfig, DefaultConfig, RemovedFlags;
    GateNamesDistinct();
    DefaultGateFor(older, gate);
    DefaultGateFor(newer, gate);
    NodeExclusionStaysValid(newer);
    forall threshold | threshold in {V109, V110, V119, V124, V125, V127} && Ge(older, threshold)
      ensures Ge(newer, threshold)
    {
      GeMonotone(older, newer, threshold);
    }
  }

  // Configuring at an older version first and then at a newer one gives what configuring at
  // the newer version gives, except that ServiceNodeExclusion=true survives when it was a
  // default of the older version, is none of the newer one, and the user never set it.
  lemma UpgradeAbsorbsUnlessNodeExclusion(older: Version, newer: Version, facts: Facts, user: Entries)
    requires Ge(newer, older)
    ensures Config(newer, facts, Config(older, facts, user)) == Config(newer, facts, user)
            <==> !(Ge(older, V109) && !Ge(older, V119) && Ge(newer, V119)
                   && NODE_EXCLUSION !in Parse(GatesOf(user)))
  {
    hide Layers.Apply, Ge, DefaultGates, Invalid, StaticConfig, DefaultConfig, RemovedFlags, Parse, Sticks;
    LeavesGates(older, facts);
    LeavesGates(newer, facts);
    InvalidGrows(older, newer);
    RemovedFlagsGrow(older, newer);
    Absorption(LayersFor(older, facts), LayersFor(newer, facts), user);
    forall gate
      ensures Sticks(LayersFor(older, facts), LayersFor(newer, facts), Parse(GatesOf(user)), gate)
              <==> gate == NODE_EXCLUSION && gate !in Parse(GatesOf(user)) && Ge(older, V109) && !Ge(older, V119) && Ge(newer, V119)
    {
      OnlyNodeExclusionSticks(older, newer, facts, Parse(GatesOf(user)), gate);
    }
    assert Sticks(LayersFor(older, facts), LayersFor(newer, facts), Parse(GatesOf(user)), NODE_EXCLUSION)
        <==> NODE_EXCLUSION !in Parse(GatesOf(user)) && Ge(older, V109) && !Ge(older, V119) && Ge(newer, V119);
  }

  lemma InvalidGrows(older: Version, newer: Version)
    requires Ge(newer, older)
    ensures ToSet(Invalid(older)) <= ToSet(Invalid(newer))
  {
    InvalidGatesGrow(older, newer, [NO_TOKENS]);
  }

  // The exception is real: an upgrade from 1.18 to 1.20 keeps a gate 1.20 would not set.
  lemma NodeExclusionSurvives()
    ensures Config(Release(1, 20, 0), Plain(), Config(Release(1, 18, 0), Plain(), map[]))
         != Config(Release(1, 20, 0), Plain(), map[])
  {
    hide Config, Parse;
    ParseEmpty();
    UpgradeAbsorbsUnlessNodeExclusion(Release(1, 18, 0), Release(1, 20, 0), Plain(), map[]);
  }

  function Plain(): Facts {
    Facts("10.244.0.0/16", "10.0.0.0/16", false, false, false, None, false, false, true)
  }
}
