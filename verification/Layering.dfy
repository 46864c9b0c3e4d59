// What the component defaulting functions of pkg/api/defaults-*.go share: default and forced
// layers over the user's flags, the --feature-gates entry, and the gates each version removed.
module Layering {
  import opened GoMaps
  import opened Gates
  import opened Options
  import opened Versions

  const FEATURE_GATES := "--feature-gates"

  function GatesOf(m: Entries): string {
    Get(m, FEATURE_GATES)
  }

  // ---- The gates that are invalid from some version on ----

  function InvalidSince122(): seq<string> {
    ["VolumeSnapshotDataSource"]
  }

  function InvalidSince127(): seq<string> {
    ["ControllerManagerLeaderMigration",
     "ExpandCSIVolumes", "ExpandInUsePersistentVolumes", "ExpandPersistentVolumes",
     "CSIInlineVolume", "CSIMigration", "CSIMigrationAzureDisk", "DaemonSetUpdateSurge", "EphemeralContainers",
     "IdentifyPodOS", "LocalStorageCapacityIsolation", "NetworkPolicyEndPort", "StatefulSetMinReadySeconds"]
  }

  function InvalidSince128(): seq<string> {
    ["AdvancedAuditing", "DisableAcceleratorUsageMetrics", "DryRun", "PodSecurity",
     "NetworkPolicyStatus", "PodHasNetworkCondition", "UserNamespacesStatelessPodsSupport",
     "CSIMigrationGCE", "CSIStorageCapacity", "DelegateFSGroupToCSIDriver", "DevicePlugins",
     "KubeletCredentialProviders", "MixedProtocolLBService", "ServiceInternalTrafficPolicy",
     "ServiceIPStaticSubrange", "EndpointSliceTerminatingCondition", "WindowsHostProcessContainers"]
  }

  function InvalidSince129(): seq<string> {
    ["CSIMigrationvSphere", "ProbeTerminationGracePeriod", "JobTrackingWithFinalizers", "TopologyManager",
     "OpenAPIV3", "SeccompDefault", "CronJobTimeZone", "JobMutableNodeSchedulingDirectives",
     "LegacyServiceAccountTokenNoAutoGeneration", "DownwardAPIHugePages", "GRPCContainerProbe",
     "RetroactiveDefaultStorageClass"]
  }

  const V122 := PreRelease(1, 22, 0, [Alpha("alpha"), Num(1)])
  const V127 := Release(1, 27, 0)
  const V128 := Release(1, 28, 0)
  const V129 := Release(1, 29, 0)

  function When(condition: bool, gates: seq<string>): seq<string> {
    if condition then gates else []
  }

  // extra127 holds the gates a single component adds to the common list from 1.27 on.
  function InvalidFeatureGates(version: Version, extra127: seq<string>): seq<string> {
    When(Ge(version, V122), InvalidSince122())
    + When(Ge(version, V127), InvalidSince127() + extra127)
    + When(Ge(version, V128), InvalidSince128())
    + When(Ge(version, V129), InvalidSince129())
  }

  // A gate removed at some version stays removed at every later one.
  lemma InvalidGatesGrow(older: Version, newer: Version, extra127: seq<string>)
    requires Ge(newer, older)
    ensures ToSet(InvalidFeatureGates(older, extra127)) <= ToSet(InvalidFeatureGates(newer, extra127))
  {
    forall threshold | threshold in {V122, V127, V128, V129} && Ge(older, threshold)
      ensures Ge(newer, threshold)
    {
      GeMonotone(older, newer, threshold);
    }
    WhenGrow4(Ge(older, V122), Ge(newer, V122), InvalidSince122(),
              Ge(older, V127), Ge(newer, V127), InvalidSince127() + extra127,
              Ge(older, V128), Ge(newer, V128), InvalidSince128(),
              Ge(older, V129), Ge(newer, V129), InvalidSince129());
  }

  lemma WhenGrow4(a: bool, a': bool, x: seq<string>, b: bool, b': bool, y: seq<string>,
                  c: bool, c': bool, z: seq<string>, d: bool, d': bool, w: seq<string>)
    requires (a ==> a') && (b ==> b') && (c ==> c') && (d ==> d')
    ensures ToSet(When(a, x) + When(b, y) + When(c, z) + When(d, w))
         <= ToSet(When(a', x) + When(b', y) + When(c', z) + When(d', w))
  {
  }

  // ---- The helpers of pkg/api/defaults.go ----

  // The gate string addDefaultFeatureGates contributes; minVersion None stands for "".
  function DefaultGate(version: Version, minVersion: Option<Version>, gates: string): string {
    if minVersion == None || Ge(version, minVersion.value) then gates else ""
  }

  method AddDefaultFeatureGates(m: StringMap, version: Version, minVersion: Option<Version>, defaults: string)
    modifies m
    ensures m.entries
         == old(m.entries)[FEATURE_GATES := Combine([GatesOf(old(m.entries)), DefaultGate(version, minVersion, defaults)])]
  {
    var r;
    if minVersion == None || Ge(version, minVersion.value) {
      r := CombineValues([Get(m.entries, FEATURE_GATES), defaults]);
    } else {
      r := CombineValues([Get(m.entries, FEATURE_GATES), ""]);
    }
    m.Set(FEATURE_GATES, r);
  }

  method RemoveInvalidFeatureGates(m: StringMap, invalid: seq<string>)
    modifies m
    ensures m.entries == old(m.entries)[FEATURE_GATES := Remove(GatesOf(old(m.entries)), invalid)]
  {
    var r := RemoveKeys(Get(m.entries, FEATURE_GATES), invalid);
    m.Set(FEATURE_GATES, r);
  }

  // A delete loop, as one more step of dropping a growing list of flags.
  method Drop(config: StringMap, ghost before: Entries, ghost gone: seq<string>, keys: seq<string>)
    returns (ghost gone': seq<string>)
    requires config.entries == before - ToSet(gone)
    modifies config
    ensures gone' == gone + keys
    ensures config.entries == before - ToSet(gone')
  {
    config.DeleteAll(keys);
    gone' := gone + keys;
    ToSetConcat(gone, keys);
    SubtractTwice(before, ToSet(gone), ToSet(keys));
  }

  lemma NothingDropped(m: Entries)
    ensures m - ToSet([]) == m
  {
  }

  // No new name is also an old name, and no two old names share a new one.
  ghost predicate Independent(replaced: Entries) {
    && replaced.Keys !! replaced.Values
    && forall a, b :: a in replaced && b in replaced && replaced[a] == replaced[b] ==> a == b
  }

  ghost predicate Renamed(before: Entries, replaced: Entries, after: Entries) {
    && (forall old_ :: old_ in replaced ==> old_ !in after)
    && (forall old_ :: old_ in replaced ==>
          Get?(after, replaced[old_]) == if old_ in before then Get?(before, old_) else Get?(before, replaced[old_]))
    && (forall key :: key !in replaced && key !in replaced.Values ==> Get?(after, key) == Get?(before, key))
  }

  function Get?(m: Entries, key: string): Option<string> {
    if key in m then Some(m[key]) else None
  }

  // Whatever order the range loop takes, the same flags end up under the same names.
  method ReplaceFlags(m: StringMap, replaced: Entries)
    modifies m
    ensures Independent(replaced) ==> Renamed(old(m.entries), replaced, m.entries)
  {
    var todo := replaced.Keys;
    ghost var before := m.entries;
    while todo != {}
      invariant todo <= replaced.Keys
      invariant Independent(replaced) ==> Renamed(before, Without(replaced, todo), m.entries)
      decreases |todo|
    {
      var name :| name in todo;
      ghost var last := m.entries;
      ghost var rest := todo;
      todo := todo - {name};
      if name in m.entries {
        m.Set(replaced[name], m.entries[name]);
        m.entries := m.entries - {name};
      }
      if Independent(replaced) {
        RenameStep(before, replaced, rest, name, last, m.entries);
      }
    }
    assert Without(replaced, {}) == replaced;
  }

  ghost function Without(m: Entries, keys: set<string>): Entries {
    m - keys
  }

  lemma RenameStep(before: Entries, replaced: Entries, todo: set<string>, name: string, last: Entries, after: Entries)
    requires Independent(replaced) && name in todo && todo <= replaced.Keys
    requires Renamed(before, Without(replaced, todo), last)
    requires after == if name in last then last[replaced[name] := last[name]] - {name} else last
    ensures Renamed(before, Without(replaced, todo - {name}), after)
  {
    var finished := Without(replaced, todo);
    var next := Without(replaced, todo - {name});
    OneMoreRenamed(replaced, todo, name);
    RenameOneMore(before, finished, name, replaced[name], last, after, next);
  }

  lemma RenameOneMore(before: Entries, finished: Entries, name: string, newName: string, last: Entries, after: Entries, next: Entries)
    requires Renamed(before, finished, last) && next == finished[name := newName]
    requires next.Values == finished.Values + {newName}
    requires name !in finished.Keys + finished.Values && newName !in finished.Keys + finished.Values + {name}
    requires after == if name in last then last[newName := last[name]] - {name} else last
    ensures Renamed(before, next, after)
  {
    forall key
      ensures Get?(after, key) ==
              if key == name then None else if key == newName && name in last then Get?(last, name) else Get?(last, key)
    {
    }
    assert Get?(last, name) == Get?(before, name);
  }

  lemma OneMoreRenamed(replaced: Entries, todo: set<string>, name: string)
    requires Independent(replaced) && name in todo && todo <= replaced.Keys
    ensures var finished, next := Without(replaced, todo), Without(replaced, todo - {name});
            && next.Keys == finished.Keys + {name} && next.Values == finished.Values + {replaced[name]}
            && next == finished[name := replaced[name]]
            && name !in finished.Keys + finished.Values && replaced[name] !in finished.Keys + finished.Values + {name}
  {
    var finished, next := Without(replaced, todo), Without(replaced, todo - {name});
    assert next.Keys == finished.Keys + {name};
    assert next == finished[name := replaced[name]];
    assert name in replaced.Keys && replaced[name] in replaced.Values;
    assert finished.Values <= replaced.Values;
    assert next[name] == replaced[name];
    forall v | v in next.Values
      ensures v in finished.Values + {replaced[name]}
    {
      var k :| k in next && next[k] == v;
      assert k != name ==> finished[k] == v;
    }
    forall v | v in finished.Values
      ensures v in next.Values && v != replaced[name]
    {
      var k :| k in finished && finished[k] == v;
      assert next[k] == v;
    }
  }

  lemma RenamedUnique(before: Entries, replaced: Entries, a: Entries, b: Entries)
    requires Renamed(before, replaced, a) && Renamed(before, replaced, b)
    ensures a == b
  {
    forall key
      ensures Get?(a, key) == Get?(b, key)
    {
      if key in replaced.Values && key !in replaced {
        var name :| name in replaced && replaced[name] == key;
      }
    }
    assert forall key :: key in a <==> Get?(a, key).Some?;
    assert forall key :: key in b <==> Get?(b, key).Some?;
    assert forall key :: key in a ==> Get?(a, key).value == a[key];
    assert forall key :: key in b ==> Get?(b, key).value == b[key];
  }

  lemma MergeThenRemove(input: string, gates: seq<string>, invalid: seq<string>)
    ensures Remove(Combine([input] + gates), invalid) == Print((Meaning(gates) + Parse(input)) - ToSet(invalid))
    ensures Parse(Remove(Combine([input] + gates), invalid)) == (Meaning(gates) + Parse(input)) - ToSet(invalid)
  {
    CombineRoundTrip([input] + gates);
    MeaningConcat([input], gates);
    MeaningOne(input);
    RemoveRoundTrip(Combine([input] + gates), invalid);
  }

  // ---- Layers and their absorption ----

  // Fill in defaults, drop removed flags, merge default gates (the user's binding of a gate
  // wins), force the flags the user may not set, drop invalid gates.
  datatype Layers = Layers(defaults: Entries, removed: set<string>, gates: seq<string>,
                           forced: Entries, invalid: seq<string>)
  {
    ghost predicate LeavesGates() {
      FEATURE_GATES !in defaults && FEATURE_GATES !in removed && FEATURE_GATES !in forced
    }

    ghost function Filled(m: Entries): Entries {
      (defaults + m) - removed
    }

    ghost function Apply(m: Entries): Entries {
      var gated := Filled(m)[FEATURE_GATES := Combine([GatesOf(Filled(m))] + gates)] + forced;
      gated[FEATURE_GATES := Remove(GatesOf(gated), invalid)]
    }

    // The gates Apply leaves, as a function of the gates it found.
    ghost function GateMap(user: Entries): Entries {
      (Meaning(gates) + user) - ToSet(invalid)
    }

    lemma ApplyGates(m: Entries)
      requires LeavesGates()
      ensures GatesOf(Apply(m)) == Print(GateMap(Parse(GatesOf(m))))
      ensures Parse(GatesOf(Apply(m))) == GateMap(Parse(GatesOf(m)))
    {
      GatesUntouched(m);
      MergeThenRemove(GatesOf(m), gates, invalid);
    }

    // The steps one after the other.
    lemma Steps(user: Entries)
      ensures var kept := (defaults + user) - removed;
              var gated := kept[FEATURE_GATES := Combine([GatesOf(kept)] + gates)];
              var all := gated + forced;
              Apply(user) == all[FEATURE_GATES := Remove(GatesOf(all), invalid)]
    {
    }

    // The steps of a component that removes no flags and has one default gate.
    lemma OneGate(user: Entries, gate: string)
      requires removed == {} && gates == [gate]
      ensures var filled := defaults + user;
              var gated := filled[FEATURE_GATES := Combine([GatesOf(filled), gate])];
              var all := gated + forced;
              Apply(user) == all[FEATURE_GATES := Remove(GatesOf(all), invalid)]
    {
      assert Filled(user) == defaults + user;
      assert [GatesOf(defaults + user)] + [gate] == [GatesOf(defaults + user), gate];
    }

    lemma GatesUntouched(m: Entries)
      requires LeavesGates()
      ensures GatesOf(Filled(m)) == GatesOf(m)
      ensures GatesOf(Apply(m)) == Remove(Combine([GatesOf(m)] + gates), invalid)
    {
    }

    // Every other flag: forced, else removed, else the user's, else the default.
    lemma ApplyFlag(m: Entries, key: string)
      requires LeavesGates() && key != FEATURE_GATES
      ensures Get?(Apply(m), key) ==
              if key in forced then Some(forced[key])
              else if key in removed then None
              else if key in m then Some(m[key])
              else Get?(defaults, key)
    {
    }
  }

  lemma EntriesExtensional(a: Entries, b: Entries)
    requires forall key :: Get?(a, key) == Get?(b, key)
    ensures a == b
  {
    assert forall key :: key in a <==> Get?(a, key).Some?;
    assert forall key :: key in b <==> Get?(b, key).Some?;
    assert forall key :: key in a ==> Get?(a, key).value == a[key];
    assert forall key :: key in b ==> Get?(b, key).value == b[key];
  }

  // newer may follow older: it forces or removes every flag older forces, and it removes at
  // least the flags and gates older removes.
  ghost predicate Succeeds(older: Layers, newer: Layers) {
    && older.LeavesGates() && newer.LeavesGates()
    && older.forced.Keys <= newer.forced.Keys + newer.removed
    && older.removed <= newer.removed
    && ToSet(older.invalid) <= ToSet(newer.invalid)
  }

  // A gate older adds by default that newer neither adds with the same value nor removes
  // sticks in an upgraded cluster, unless the user had bound it anyway.
  ghost predicate Sticks(older: Layers, newer: Layers, user: Entries, gate: string) {
    && gate in Meaning(older.gates) && gate !in user && gate !in ToSet(newer.invalid)
    && Get?(Meaning(newer.gates), gate) != Some(Meaning(older.gates)[gate])
  }

  // The same for a default flag.
  ghost predicate FlagSticks(older: Layers, newer: Layers, m: Entries, key: string) {
    && key in older.defaults && key !in m && key !in newer.removed && key !in newer.forced
    && Get?(newer.defaults, key) != Some(older.defaults[key])
  }

  // Configuring at the older version first leaves no trace, exactly if no default sticks.
  lemma Absorption(older: Layers, newer: Layers, m: Entries)
    requires Succeeds(older, newer)
    ensures newer.Apply(older.Apply(m)) == newer.Apply(m)
            <==> && (forall gate :: !Sticks(older, newer, Parse(GatesOf(m)), gate))
                 && (forall key :: !FlagSticks(older, newer, m, key))
  {
    hide Parse, Print, Layers.Apply, FlagSticks, Sticks;
    var user := Parse(GatesOf(m));
    older.ApplyGates(m);
    newer.ApplyGates(m);
    newer.ApplyGates(older.Apply(m));
    GateAbsorption(older, newer, user);
    forall key | key != FEATURE_GATES
      ensures Get?(newer.Apply(older.Apply(m)), key) == Get?(newer.Apply(m), key) <==> !FlagSticks(older, newer, m, key)
    {
      AbsorbedFlag(older, newer, m, key);
    }
    GatesNeverStickAsFlag(older, newer, m);
    if (forall gate :: !Sticks(older, newer, user, gate)) && (forall key :: !FlagSticks(older, newer, m, key)) {
      GatesPresent(newer, m);
      GatesPresent(newer, older.Apply(m));
      EntriesExtensional(newer.Apply(older.Apply(m)), newer.Apply(m));
    }
  }

  lemma GatesPresent(layers: Layers, m: Entries)
    ensures FEATURE_GATES in layers.Apply(m)
  {
  }

  lemma GatesNeverStickAsFlag(older: Layers, newer: Layers, m: Entries)
    requires older.LeavesGates()
    ensures !FlagSticks(older, newer, m, FEATURE_GATES)
  {
  }

  lemma GateAbsorption(older: Layers, newer: Layers, user: Entries)
    requires ToSet(older.invalid) <= ToSet(newer.invalid)
    ensures newer.GateMap(older.GateMap(user)) == newer.GateMap(user)
            <==> forall gate :: !Sticks(older, newer, user, gate)
  {
    var direct, upgraded := newer.GateMap(user), newer.GateMap(older.GateMap(user));
    forall gate
      ensures Get?(upgraded, gate) == Get?(direct, gate) <==> !Sticks(older, newer, user, gate)
    {
      GateAt(Meaning(older.gates), ToSet(older.invalid), Meaning(newer.gates), ToSet(newer.invalid), user, gate);
    }
    if forall gate :: !Sticks(older, newer, user, gate) {
      EntriesExtensional(upgraded, direct);
    }
  }

  lemma GateAt(added: Entries, gone: set<string>, added': Entries, gone': set<string>, user: Entries, gate: string)
    requires gone <= gone'
    ensures Get?((added' + ((added + user) - gone)) - gone', gate) == Get?((added' + user) - gone', gate)
            <==> !(gate in added && gate !in user && gate !in gone' && Get?(added', gate) != Some(added[gate]))
  {
  }

  lemma AbsorbedFlag(older: Layers, newer: Layers, m: Entries, key: string)
    requires Succeeds(older, newer) && key != FEATURE_GATES
    ensures Get?(newer.Apply(older.Apply(m)), key) == Get?(newer.Apply(m), key)
            <==> !FlagSticks(older, newer, m, key)
  {
    hide Layers.Apply;
    older.ApplyFlag(m, key);
    newer.ApplyFlag(m, key);
    newer.ApplyFlag(older.Apply(m), key);
  }

  const V125 := Release(1, 25, 0)

  // The one default gate of the scheduler and the apiserver.
  const POD_SECURITY := "PodSecurity"

  function PodSecurityGate(version: Version): seq<string> {
    [DefaultGate(version, Some(V125), "PodSecurity=true")]
  }

  lemma PodSecurityKept(older: Layers, newer: Layers, older_: Version, newer_: Version, user: Entries, gate: string)
    requires older.gates == PodSecurityGate(older_) && newer.gates == PodSecurityGate(newer_) && Ge(newer_, older_)
    ensures !Sticks(older, newer, user, gate)
  {
    hide Parse, Ge, Meaning;
    MeaningOne(older.gates[0]);
    MeaningOne(newer.gates[0]);
    ParseEmpty();
    if Ge(older_, V125) {
      GeMonotone(older_, newer_, V125);
    }
  }

  // Parsing the printed form of one clean binding.
  lemma ParseBinding(key: string, val: string)
    requires CleanPair(key, val)
    ensures Parse(key + "=" + val) == map[key := val]
  {
    var s := key + "=" + val;
    PairOfPrinted(key, val);
    assert ',' !in s;
    assert ApplyItems(map[], [s]) == ApplyItems(ApplyItem(map[], s), []);
  }

  lemma ParseEmpty()
    ensures Parse("") == map[]
  {
    assert PairOf("") == None;
  }

  lemma ParsedPodSecurity()
    ensures Parse("PodSecurity=true") == map[POD_SECURITY := "true"]
  {
    hide Parse;
    ParseBinding(POD_SECURITY, "true");
    assert POD_SECURITY + "=" + "true" == "PodSecurity=true";
  }

  lemma PodSecurityMeaning(version: Version)
    ensures Meaning(PodSecurityGate(version)) == if Ge(version, V125) then map[POD_SECURITY := "true"] else map[]
  {
    hide Parse, Ge, Meaning;
    MeaningOne(PodSecurityGate(version)[0]);
    ParseEmpty();
    ParsedPodSecurity();
  }

  // ---- One gate of each list ----

  lemma NotSince122(key: string)
    requires |key| !in {24}
    ensures key !in InvalidSince122()
  {
  }

  lemma NotSince127(key: string)
    requires |key| !in {12, 13, 15, 16, 19, 20, 21, 23, 26, 28, 29, 32} || (|key| == 15 && key[0] == 'T')
    ensures key !in InvalidSince127()
  {
  }

  lemma NotSince128(key: string)
    requires |key| !in {6, 11, 13, 15, 16, 18, 19, 22, 23, 26, 28, 30, 33, 34} || (|key| == 15 && key[0] == 'T')
    ensures key !in InvalidSince128()
  {
  }

  lemma NotSince129(key: string)
    requires |key| !in {9, 14, 15, 18, 19, 20, 25, 27, 30, 34, 41}
    ensures key !in InvalidSince129()
  {
  }

  lemma VolumeSnapshotGate(version: Version, extra127: seq<string>)
    requires "VolumeSnapshotDataSource" !in extra127
    ensures "VolumeSnapshotDataSource" in ToSet(InvalidFeatureGates(version, extra127)) <==> Ge(version, SINCE_122)
  {
    hide Ge, InvalidSince122, InvalidSince127, InvalidSince128, InvalidSince129;
    assert |"VolumeSnapshotDataSource"| == 24;
    NotSince127("VolumeSnapshotDataSource");
    NotSince128("VolumeSnapshotDataSource");
    NotSince129("VolumeSnapshotDataSource");
    Listed122();
  }

  lemma Listed122()
    ensures "VolumeSnapshotDataSource" in InvalidSince122()
  {
    assert InvalidSince122()[0] == "VolumeSnapshotDataSource";
  }

  lemma MigrationGate(version: Version, extra127: seq<string>)
    requires "CSIMigration" !in extra127
    ensures "CSIMigration" in ToSet(InvalidFeatureGates(version, extra127)) <==> Ge(version, SINCE_127)
  {
    hide Ge, InvalidSince122, InvalidSince127, InvalidSince128, InvalidSince129;
    assert |"CSIMigration"| == 12;
    NotSince122("CSIMigration");
    NotSince128("CSIMigration");
    NotSince129("CSIMigration");
    Listed127();
  }

  lemma Listed127()
    ensures "CSIMigration" in InvalidSince127()
  {
    assert InvalidSince127()[5] == "CSIMigration";
  }

  lemma PodSecurityGone(version: Version, extra127: seq<string>)
    requires "PodSecurity" !in extra127
    ensures "PodSecurity" in ToSet(InvalidFeatureGates(version, extra127)) <==> Ge(version, SINCE_128)
  {
    hide Ge, InvalidSince122, InvalidSince127, InvalidSince128, InvalidSince129;
    assert |"PodSecurity"| == 11;
    NotSince122("PodSecurity");
    NotSince127("PodSecurity");
    NotSince129("PodSecurity");
    Listed128();
  }

  lemma Listed128()
    ensures "PodSecurity" in InvalidSince128()
  {
    assert InvalidSince128()[3] == "PodSecurity";
  }

  lemma TopologyGate(version: Version, extra127: seq<string>)
    requires "TopologyManager" !in extra127
    ensures "TopologyManager" in ToSet(InvalidFeatureGates(version, extra127)) <==> Ge(version, SINCE_129)
  {
    hide Ge, InvalidSince122, InvalidSince127, InvalidSince128, InvalidSince129;
    assert |"TopologyManager"| == 15 && "TopologyManager"[0] == 'T';
    NotSince122("TopologyManager");
    NotSince127("TopologyManager");
    NotSince128("TopologyManager");
    Listed129();
  }

  lemma Listed129()
    ensures "TopologyManager" in InvalidSince129()
  {
    assert InvalidSince129()[3] == "TopologyManager";
  }

  const SINCE_122 := PreRelease(1, 22, 0, [Alpha("alpha"), Num(1)])
  const SINCE_127 := Release(1, 27, 0)
  const SINCE_128 := Release(1, 28, 0)
  const SINCE_129 := Release(1, 29, 0)

  // What a component adds goes with the gates of 1.27.
  lemma ExtraGates(version: Version, extra127: seq<string>)
    ensures ToSet(extra127) <= ToSet(InvalidFeatureGates(version, extra127)) || !Ge(version, SINCE_127)
    ensures !Ge(version, SINCE_127) ==> InvalidFeatureGates(version, extra127) == InvalidFeatureGates(version, [])
  {
    hide Ge, InvalidSince122, InvalidSince127, InvalidSince128, InvalidSince129;
  }
}
