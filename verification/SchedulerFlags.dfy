// The scheduler's flags and those of the cloud controller manager that depend on the version
// or the cluster, one by one.
module SchedulerFlags {
  import opened GoMaps
  import opened Gates
  import opened Options
  import opened Versions
  import opened Layering
  import opened Scheduler

  const SINCE_1_25 := Release(1, 25, 0)
  const SINCE_1_28 := Release(1, 28, 0)

  // From 1.28 on the two flags of the lock go by other names, and replace what the user has
  // under these.
  lemma FinalLocks(version: Version, user: Entries, config: Entries)
    requires config == Config(version, user)
    ensures Get?(config, "--leader-elect-resource-name")
         == if Ge(version, SINCE_1_28) && "--lock-object-name" in user then Get?(user, "--lock-object-name")
            else Get?(user, "--leader-elect-resource-name")
    ensures Get?(config, "--leader-elect-resource-namespace")
         == if Ge(version, SINCE_1_28) && "--lock-object-namespace" in user then Get?(user, "--lock-object-namespace")
            else Get?(user, "--leader-elect-resource-namespace")
    ensures forall key :: key in {"--lock-object-name", "--lock-object-namespace"} ==>
              Get?(config, key) == if Ge(version, SINCE_1_28) then None else Get?(user, key)
  {
    hide Layers.Apply, DefaultConfig, StaticConfig, Ge, PodSecurityGate, InvalidFeatureGates;
    NamesDistinct();
    var layers := LayersFor(version);
    layers.ApplyFlag(user, "--leader-elect-resource-name");
    layers.ApplyFlag(user, "--leader-elect-resource-namespace");
    layers.ApplyFlag(user, "--lock-object-name");
    layers.ApplyFlag(user, "--lock-object-namespace");
  }

  // The user's gates over PodSecurity, minus the ones that the version removed.
  lemma FinalGates(version: Version, user: Entries, config: Entries, gate: string)
    requires config == Config(version, user)
    ensures GatesOf(config) == Print(Parse(GatesOf(config)))
    ensures Get?(Parse(GatesOf(config)), gate)
         == if gate in ToSet(InvalidFeatureGates(version, [])) then None
            else if gate in Parse(GatesOf(user)) then Some(Parse(GatesOf(user))[gate])
            else if gate == "PodSecurity" && Ge(version, SINCE_1_25) then Some("true")
            else None
  {
    hide Layers.Apply, StaticConfig, DefaultConfig, ToSet, InvalidFeatureGates, PodSecurityGate, Parse, Print, Meaning, Ge;
    NamesDistinct();
    GatesKeptByRename(version, user);
    LayersFor(version).ApplyGates(user);
    PodSecurityMeaning(version);
  }

  lemma GatesKeptByRename(version: Version, user: Entries)
    ensures GatesOf(Config(version, user)) == GatesOf(LayersFor(version).Apply(user))
  {
    hide Layers.Apply, DefaultConfig, StaticConfig, Ge;
    NamesDistinct();
  }
}
