// pkg/api/defaults-scheduler.go
module Scheduler {
  import opened GoMaps
  import opened Gates
  import opened Options
  import opened Versions
  import opened Layering
  import opened Cluster

  function StaticConfig(): Entries {
    map["--kubeconfig" := "/var/lib/kubelet/kubeconfig", "--leader-elect" := "true"]
  }

  function DefaultConfig(): Entries {
    map["--v" := "2", "--profiling" := "false", "--bind-address" := "127.0.0.1", "--tls-min-version" := "VersionTLS12"]
  }

  function LayersFor(version: Version): Layers {
    Layers(DefaultConfig(), {}, PodSecurityGate(version), StaticConfig(), InvalidFeatureGates(version, []))
  }

  // The flags 1.28 renamed.
  const LOCK_NAMESPACE := "--lock-object-namespace"
  const LOCK_NAME := "--lock-object-name"
  const ELECT_NAMESPACE := "--leader-elect-resource-namespace"
  const ELECT_NAME := "--leader-elect-resource-name"

  function FlagChange(version: Version): Entries {
    if Ge(version, V128) then map[LOCK_NAMESPACE := ELECT_NAMESPACE, LOCK_NAME := ELECT_NAME] else map[]
  }

  function RenameOne(m: Entries, old_: string, new_: string): Entries {
    if old_ in m then m[new_ := m[old_]] - {old_} else m
  }

  function RenameLocks(m: Entries): Entries {
    RenameOne(RenameOne(m, LOCK_NAMESPACE, ELECT_NAMESPACE), LOCK_NAME, ELECT_NAME)
  }

  function Rename(version: Version, m: Entries): Entries {
    if Ge(version, V128) then RenameLocks(m) else m
  }

  // The scheduler flags as a function of the version and the user's flags.
  ghost function Config(version: Version, user: Entries): Entries {
    Rename(version, LayersFor(version).Apply(user))
  }

  lemma NamesDistinct()
    ensures LOCK_NAMESPACE != LOCK_NAME && LOCK_NAMESPACE != ELECT_NAMESPACE && LOCK_NAMESPACE != ELECT_NAME
    ensures LOCK_NAME != ELECT_NAMESPACE && LOCK_NAME != ELECT_NAME && ELECT_NAMESPACE != ELECT_NAME
    ensures forall name :: name in {LOCK_NAMESPACE, LOCK_NAME, ELECT_NAMESPACE, ELECT_NAME}
              ==> name !in DefaultConfig() && name !in StaticConfig() && name != FEATURE_GATES
    ensures FEATURE_GATES !in DefaultConfig() && FEATURE_GATES !in StaticConfig()
  {
    assert LOCK_NAMESPACE[2] == 'l' && LOCK_NAMESPACE[3] == 'o' && ELECT_NAMESPACE[3] == 'e';
    assert |LOCK_NAMESPACE| == 23 && |LOCK_NAME| == 18 && |ELECT_NAMESPACE| == 33 && |ELECT_NAME| == 28;
  }

  lemma RenamedLocks(m: Entries)
    ensures Renamed(m, map[LOCK_NAMESPACE := ELECT_NAMESPACE, LOCK_NAME := ELECT_NAME], RenameLocks(m))
    ensures Independent(map[LOCK_NAMESPACE := ELECT_NAMESPACE, LOCK_NAME := ELECT_NAME])
  {
    NamesDistinct();
    var replaced := map[LOCK_NAMESPACE := ELECT_NAMESPACE, LOCK_NAME := ELECT_NAME];
    assert replaced[LOCK_NAMESPACE] in replaced.Values && replaced[LOCK_NAME] in replaced.Values;
  }

  method SetSchedulerConfig(k: KubernetesConfig, version: Version)
    modifies k`schedulerConfig, k.schedulerConfig
    ensures k.schedulerConfig != null
    ensures old(k.schedulerConfig) != null ==> k.schedulerConfig == old(k.schedulerConfig)
    ensures old(k.schedulerConfig) == null ==> fresh(k.schedulerConfig)
    ensures k.schedulerConfig.entries == Config(version, old(EntriesOf(k.schedulerConfig)))
  {
    ghost var user := EntriesOf(k.schedulerConfig);
    if k.schedulerConfig == null {
      k.schedulerConfig := new StringMap(map[]);
    }
    var config := k.schedulerConfig;
    config.FillMissing(DefaultConfig());
    AddDefaultFeatureGates(config, version, Some(V125), "PodSecurity=true");
    config.Overwrite(StaticConfig());
    RemoveInvalidFeatureGates(config, InvalidFeatureGates(version, []));
    LayersFor(version).OneGate(user, DefaultGate(version, Some(V125), "PodSecurity=true"));
    RenameFlags(config, version);
  }

  method RenameFlags(config: StringMap, version: Version)
    modifies config
    ensures config.entries == Rename(version, old(config.entries))
  {
    ghost var before := config.entries;
    var flagChange := FlagChange(version);
    ReplaceFlags(config, flagChange);
    RenamedLocks(before);
    assert Renamed(before, map[], before);
    RenamedUnique(before, flagChange, config.entries, Rename(version, before));
  }

  // ---- Upgrading leaves no trace of the older version ----

  ghost predicate Foreign(layers: Layers, name: string) {
    name !in layers.defaults && name !in layers.removed && name !in layers.forced && name != FEATURE_GATES
  }

  lemma RenameCommutesAt(layers: Layers, m: Entries, old_: string, new_: string, key: string)
    requires layers.LeavesGates() && old_ != new_ && Foreign(layers, old_) && Foreign(layers, new_)
    ensures Get?(layers.Apply(RenameOne(m, old_, new_)), key) == Get?(RenameOne(layers.Apply(m), old_, new_), key)
  {
    var renamed := RenameOne(m, old_, new_);
    RenameOneAt(m, old_, new_, key);
    RenameOneAt(layers.Apply(m), old_, new_, key);
    layers.ApplyFlag(m, old_);
    if key == FEATURE_GATES {
      layers.GatesUntouched(m);
      layers.GatesUntouched(renamed);
    } else {
      layers.ApplyFlag(renamed, key);
      layers.ApplyFlag(m, key);
    }
  }

  lemma RenameOneAt(m: Entries, old_: string, new_: string, key: string)
    requires old_ != new_
    ensures Get?(RenameOne(m, old_, new_), key) ==
            if key == old_ then None
            else if key == new_ && old_ in m then Get?(m, old_)
            else Get?(m, key)
  {
  }

  // Renaming two flags the layers do not mention may as well be done before layering.
  lemma RenameCommutes(layers: Layers, m: Entries, old_: string, new_: string)
    requires layers.LeavesGates() && old_ != new_ && Foreign(layers, old_) && Foreign(layers, new_)
    ensures layers.Apply(RenameOne(m, old_, new_)) == RenameOne(layers.Apply(m), old_, new_)
  {
    forall key
      ensures Get?(layers.Apply(RenameOne(m, old_, new_)), key) == Get?(RenameOne(layers.Apply(m), old_, new_), key)
    {
      RenameCommutesAt(layers, m, old_, new_, key);
    }
    EntriesExtensional(layers.Apply(RenameOne(m, old_, new_)), RenameOne(layers.Apply(m), old_, new_));
  }

  lemma RenameAbsorbs(layers: Layers, m: Entries)
    requires layers.LeavesGates() && Foreign(layers, LOCK_NAMESPACE) && Foreign(layers, LOCK_NAME)
    requires Foreign(layers, ELECT_NAMESPACE) && Foreign(layers, ELECT_NAME)
    ensures RenameLocks(layers.Apply(RenameLocks(m))) == RenameLocks(layers.Apply(m))
  {
    NamesDistinct();
    RenameCommutes(layers, RenameOne(m, LOCK_NAMESPACE, ELECT_NAMESPACE), LOCK_NAME, ELECT_NAME);
    RenameCommutes(layers, m, LOCK_NAMESPACE, ELECT_NAMESPACE);
    RenameLocksIdempotent(layers.Apply(m));
  }

  lemma RenameLocksIdempotent(m: Entries)
    ensures RenameLocks(RenameLocks(m)) == RenameLocks(m)
  {
    NamesDistinct();
  }

  lemma LayersFit(older: Version, newer: Version)
    requires Ge(newer, older)
    ensures Succeeds(LayersFor(older), LayersFor(newer))
    ensures Foreign(LayersFor(newer), LOCK_NAMESPACE) && Foreign(LayersFor(newer), LOCK_NAME)
    ensures Foreign(LayersFor(newer), ELECT_NAMESPACE) && Foreign(LayersFor(newer), ELECT_NAME)
  {
    NamesDistinct();
    InvalidGatesGrow(older, newer, []);
  }

  // Configuring at an older version first and then at a newer one gives exactly what
  // configuring at the newer version gives.
  lemma UpgradeAbsorbs(older: Version, newer: Version, user: Entries)
    requires Ge(newer, older)
    ensures Config(newer, Config(older, user)) == Config(newer, user)
  {
    hide LayersFor, Layers.Apply, RenameLocks;
    LayersAbsorb(older, newer, user);
    if Ge(older, V128) {
      GeMonotone(older, newer, V128);
      LayersFit(older, newer);
      RenameAbsorbs(LayersFor(newer), LayersFor(older).Apply(user));
    }
  }

  lemma LayersAbsorb(older: Version, newer: Version, user: Entries)
    requires Ge(newer, older)
    ensures LayersFor(newer).Apply(LayersFor(older).Apply(user)) == LayersFor(newer).Apply(user)
  {
    var layers, layers' := LayersFor(older), LayersFor(newer);
    LayersFit(older, newer);
    forall gate
      ensures !Sticks(layers, layers', Parse(GatesOf(user)), gate)
    {
      PodSecurityKept(layers, layers', older, newer, Parse(GatesOf(user)), gate);
    }
    Absorption(layers, layers', user);
  }
}
