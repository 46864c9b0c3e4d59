// Upgrading the cluster-wide kubelet flags: what configuring at an older version leaves behind
// when the result is configured again, as part of an upgrade, at a newer version.
module KubeletUpgrade {
  import opened GoMaps
  import opened Options
  import opened Strings
  import opened Gates
  import opened GateSearch
  import opened Versions
  import opened Layering
  import opened NodeLayering
  import opened Kubelet

  const FREQUENCY := "--node-status-update-frequency"
  const ROTATE_SERVER := "RotateKubeletServerCertificate"
  const PROBE_TIMEOUT := "ExecProbeTimeout"

  // ---- One layer after another ----

  // newer may follow older: it forces or removes every flag older forces, and it removes at
  // least the gates and, but for the limit on process ids, the flags that older removes.
  ghost predicate Follows(older: NodeLayers, newer: NodeLayers) {
    && older.WellFormed() && newer.WellFormed() && older.taint.None? && newer.taint.None?
    && older.late == map[] && newer.late == map[] && older.lateForced == map[] && newer.lateForced == map[]
    && older.forced.Keys <= newer.forced.Keys + newer.removed
    && older.removed <= newer.removed + {PIDS}
    && ToSet(older.invalid) <= ToSet(newer.invalid)
    && FEATURE_GATES !in older.inherited && FEATURE_GATES !in newer.inherited
    && older.gates.Some? && newer.gates.Some?
  }

  // A default that newer neither has nor removes nor forces, and that the user never set.
  ghost predicate DefaultSticks(older: NodeLayers, newer: NodeLayers, m: Entries, key: string) {
    && key in older.inherited && key !in m && key !in newer.removed && key !in newer.forced
    && Get?(newer.inherited, key) != Some(older.inherited[key])
  }

  lemma FlagAbsorbed(older: NodeLayers, newer: NodeLayers, m: Entries, key: string)
    requires Follows(older, newer) && key != FEATURE_GATES && key != PIDS
    ensures Get?(newer.Apply(older.Apply(m)), key) == Get?(newer.Apply(m), key) <==> !DefaultSticks(older, newer, m, key)
  {
    hide NodeLayers.Apply, Contains;
    if key == TAINTS {
      older.TaintsFlag(m);
      newer.TaintsFlag(m);
      newer.TaintsFlag(older.Apply(m));
    } else {
      older.OrdinaryFlag(m, key);
      newer.OrdinaryFlag(m, key);
      newer.OrdinaryFlag(older.Apply(m), key);
    }
  }

  // Every default gate of older is one of newer.
  ghost predicate GatesGrow(older: NodeLayers, newer: NodeLayers)
    requires older.gates.Some? && newer.gates.Some?
  {
    forall gate :: gate in Meaning(older.gates.value) ==>
      Get?(Meaning(newer.gates.value), gate) == Some(Meaning(older.gates.value)[gate])
  }

  lemma OwnGates(layers: NodeLayers, m: Entries)
    requires layers.WellFormed() && FEATURE_GATES !in layers.inherited
    ensures GatesOf(layers.Own(m)) == GatesOf(m)
  {
  }

  lemma GatesAbsorbed(older: NodeLayers, newer: NodeLayers, m: Entries)
    requires Follows(older, newer) && GatesGrow(older, newer)
    ensures Get?(newer.Apply(older.Apply(m)), FEATURE_GATES) == Get?(newer.Apply(m), FEATURE_GATES)
    ensures Parse(GatesOf(older.Apply(m)))
         == (Meaning(older.gates.value) + Parse(GatesOf(m))) - ToSet(older.invalid)
  {
    hide NodeLayers.Apply, NodeLayers.Own, NodeLayers.Merged, Parse, Combine, Remove, Print, Meaning, ToSet;
    older.GatesFlag(m);
    newer.GatesFlag(m);
    newer.GatesFlag(older.Apply(m));
    OwnGates(older, m);
    OwnGates(newer, m);
    OwnGates(newer, older.Apply(m));
    MergeThenRemove(GatesOf(m), older.gates.value, older.invalid);
    MergeThenRemove(GatesOf(m), newer.gates.value, newer.invalid);
    MergeThenRemove(GatesOf(older.Apply(m)), newer.gates.value, newer.invalid);
    UnionAbsorbed(Meaning(older.gates.value), ToSet(older.invalid), Meaning(newer.gates.value), ToSet(newer.invalid),
                  Parse(GatesOf(m)));
  }

  lemma UnionAbsorbed(added: Entries, gone: set<string>, added': Entries, gone': set<string>, user: Entries)
    requires gone <= gone' && forall key :: key in added ==> Get?(added', key) == Some(added[key])
    ensures (added' + ((added + user) - gone)) - gone' == (added' + user) - gone'
  {
    forall key
      ensures Get?((added' + ((added + user) - gone)) - gone', key) == Get?((added' + user) - gone', key)
    {
      GateAt(added, gone, added', gone', user, key);
    }
    EntriesExtensional((added' + ((added + user) - gone)) - gone', (added' + user) - gone');
  }

  // ---- The limit on process ids ----

  ghost predicate Binds(m: Entries) {
    exists key :: key in m && HasSuffix(key, "SupportPodPidsLimit") && "true" <= m[key]
  }

  // The merged gates contain the process-limit gate exactly if the user's gates bind it.
  lemma FoundWhenMerged(layers: NodeLayers, m: Entries)
    requires layers.WellFormed() && FEATURE_GATES !in layers.inherited && layers.gates.Some?
    requires forall gate :: gate in Meaning(layers.gates.value) ==> !HasSuffix(gate, "SupportPodPidsLimit")
    ensures Contains(GatesOf(layers.Merged(m)), PIDS_GATE) <==> Binds(Parse(GatesOf(m)))
  {
    hide NodeLayers.Own, NodeLayers.Merged, Parse, Print, Meaning, Contains, HasSuffix;
    var ds := layers.gates.value;
    layers.GatesFlag(m);
    OwnGates(layers, m);
    BindsAgain(Meaning(ds), Parse(GatesOf(m)), {});
    assert (Meaning(ds) + Parse(GatesOf(m))) - {} == Meaning(ds) + Parse(GatesOf(m));
    MeaningConcat([GatesOf(m)], ds);
    MeaningOne(GatesOf(m));
    MeaningClean([GatesOf(m)] + ds);
    assert PIDS_GATE == "SupportPodPidsLimit" + "=" + "true";
    ContainsPrinted(Meaning([GatesOf(m)] + ds), "SupportPodPidsLimit", "true");
  }

  // Gates without that suffix, added or removed, make no difference to it.
  lemma BindsAgain(added: Entries, user: Entries, gone: set<string>)
    requires forall gate :: gate in added || gate in gone ==> !HasSuffix(gate, "SupportPodPidsLimit")
    ensures Binds((added + user) - gone) <==> Binds(user)
  {
    hide HasSuffix;
    if Binds(user) {
      var key :| key in user && HasSuffix(key, "SupportPodPidsLimit") && "true" <= user[key];
      assert key in (added + user) - gone;
    }
  }

  // The merged flags keep the limit.
  ghost predicate Keeps(m: Entries) {
    PIDS in m && Atoi(m[PIDS]).Some? && Atoi(m[PIDS]).value > 0 && Binds(Parse(GatesOf(m)))
  }

  // The limit that one of the two configurations leaves.
  ghost function Limit(version: Version, isUpgrade: bool, m: Entries): Option<string> {
    if !Ge(version, V110) then None
    else if isUpgrade && Ge(version, V114) && !Keeps(m) then Some("-1")
    else if PIDS in m then Some(m[PIDS]) else Some("-1")
  }

  lemma NoLimit()
    ensures Atoi("") == None && Atoi("-1") == Some(-1)
  {
    AtoiMinusOne();
  }

  lemma BasicGates(facts: KubeletFacts)
    ensures FEATURE_GATES !in BasicConfig(facts)
  {
    assert |FEATURE_GATES| == 15 && FEATURE_GATES[2] == 'f';
  }

  lemma BasicLimit(facts: KubeletFacts)
    ensures Get?(BasicConfig(facts), PIDS) == Some("-1")
  {
    assert |PIDS| == 14 && PIDS[2] == 'p';
  }

  lemma BasicFrequency(facts: KubeletFacts)
    ensures Get?(BasicConfig(facts), FREQUENCY) == Some(facts.nodeStatusFrequency)
  {
    assert |FREQUENCY| == 30;
  }

  lemma BasicFlags(facts: KubeletFacts)
    ensures FEATURE_GATES !in BasicConfig(facts)
    ensures Get?(BasicConfig(facts), PIDS) == Some("-1")
    ensures Get?(BasicConfig(facts), FREQUENCY) == Some(facts.nodeStatusFrequency)
  {
    hide BasicConfig;
    BasicGates(facts);
    BasicLimit(facts);
    BasicFrequency(facts);
  }

  function VersionNames(): set<string> {
    {"--rotate-certificates", "--authentication-token-webhook", "--read-only-port", "--container-runtime",
     "--runtime-request-timeout", "--container-runtime-endpoint"}
  }

  lemma VersionKeys(version: Version, facts: KubeletFacts, key: string)
    requires key in VersionConfig(version, facts)
    ensures key in VersionNames()
  {
    hide Ge;
  }

  lemma NotBasic(facts: KubeletFacts, key: string)
    requires key in VersionNames()
    ensures key !in BasicConfig(facts)
  {
    hide BasicConfig;
    assert |"--rotate-certificates"| == 21 && |"--authentication-token-webhook"| == 30 && |"--read-only-port"| == 16;
    assert |"--container-runtime"| == 19 && |"--runtime-request-timeout"| == 25 && |"--container-runtime-endpoint"| == 28;
    if key[2] == 'r' {
      NotBasicR(facts, key);
    } else if key[2] == 'a' {
      NotBasicA(facts, key);
    } else {
      NotBasicC(facts, key);
    }
  }

  lemma NotBasicR(facts: KubeletFacts, key: string)
    requires |key| in {16, 21, 25} && key[2] == 'r'
    ensures key !in BasicConfig(facts)
  {
  }

  lemma NotBasicA(facts: KubeletFacts, key: string)
    requires |key| == 30 && key[2] == 'a'
    ensures key !in BasicConfig(facts)
  {
  }

  lemma NotBasicC(facts: KubeletFacts, key: string)
    requires |key| in {19, 28} && key[2] == 'c'
    ensures key !in BasicConfig(facts)
  {
  }

  lemma VersionFlags(version: Version, facts: KubeletFacts)
    ensures FEATURE_GATES !in VersionConfig(version, facts) && PIDS !in VersionConfig(version, facts)
    ensures FREQUENCY !in VersionConfig(version, facts)
  {
    hide VersionConfig;
    forall key | key in VersionConfig(version, facts)
      ensures key !in {FEATURE_GATES, PIDS, FREQUENCY}
    {
      VersionKeys(version, facts, key);
      assert |FEATURE_GATES| == 15 && |PIDS| == 14 && |FREQUENCY| == 30 && FREQUENCY[2] == 'n';
    }
  }

  lemma LimitLeft(version: Version, facts: KubeletFacts, isUpgrade: bool, m: Entries)
    ensures Get?(ClusterConfig(version, facts, isUpgrade, m), PIDS) == Limit(version, isUpgrade, m)
  {
    hide NodeLayers.Apply, NodeLayers.Merged, StaticLinux, BasicConfig, VersionConfig, Invalid, Ge, ToSet, RemovedFlags, Contains, Atoi, Parse,
      Meaning, DefaultGates;
    var layers := ClusterLayers(version, facts, isUpgrade);
    ClusterWellFormed(version, facts, isUpgrade);
    PidsRemovedWhenOld(version);
    PidsStayUnlessOld(version);
    if !Ge(version, V110) {
      PidsRemoved(layers, m);
    } else {
      NoLimit();
      layers.PidsFlag(m);
      BasicFlags(facts);
      VersionFlags(version, facts);
      GatesNotPids(version);
      FoundWhenMerged(layers, m);
    }
  }

  lemma PidsRemovedWhenOld(version: Version)
    ensures PIDS in ToSet(RemovedFlags(version)) <==> !Ge(version, V110)
  {
    hide Ge, ToSet, DockershimFlags;
    RemovedOrdinary(version);
    if !Ge(version, V110) {
      assert RemovedFlags(version)[0] == PIDS;
      FirstInSet(RemovedFlags(version));
    }
  }

  lemma FirstInSet(s: seq<string>)
    requires s != []
    ensures s[0] in ToSet(s)
  {
  }

  // ---- The defaults of two versions ----

  function GateMap(version: Version): Entries {
    If(Ge(version, V125), map[POD_SECURITY := "true"]) + If(Ge(version, V120RC0), map[PROBE_TIMEOUT := "true"])
    + If(Ge(version, V1119), map[ROTATE_SERVER := "true"])
  }

  lemma ParsedGates()
    ensures Parse("") == map[]
    ensures Parse("RotateKubeletServerCertificate=true") == map[ROTATE_SERVER := "true"]
    ensures Parse("ExecProbeTimeout=true") == map[PROBE_TIMEOUT := "true"]
    ensures Parse("PodSecurity=true") == map[POD_SECURITY := "true"]
  {
    hide Parse;
    ParseEmpty();
    ParseBinding(ROTATE_SERVER, "true");
    assert ROTATE_SERVER + "=" + "true" == "RotateKubeletServerCertificate=true";
    ParseBinding(PROBE_TIMEOUT, "true");
    assert PROBE_TIMEOUT + "=" + "true" == "ExecProbeTimeout=true";
    ParsedPodSecurity();
  }

  lemma MeaningOfDefaults(version: Version)
    ensures Meaning(DefaultGates(version)) == GateMap(version)
  {
    hide Parse, Ge, Meaning;
    var ds := DefaultGates(version);
    ParsedGates();
    MeaningOne(ds[0]);
    MeaningOne(ds[1]);
    MeaningOne(ds[2]);
    MeaningConcat([ds[0]], [ds[1]]);
    MeaningConcat([ds[0], ds[1]], [ds[2]]);
    assert [ds[0]] + [ds[1]] == [ds[0], ds[1]] && [ds[0], ds[1]] + [ds[2]] == ds;
  }

  lemma DifferentGates()
    ensures |{POD_SECURITY, PROBE_TIMEOUT, ROTATE_SERVER}| == 3
    ensures forall gate :: gate in {POD_SECURITY, PROBE_TIMEOUT, ROTATE_SERVER} ==> !HasSuffix(gate, "SupportPodPidsLimit")
  {
    assert |POD_SECURITY| == 11 && |PROBE_TIMEOUT| == 16 && |ROTATE_SERVER| == 30;
    assert ROTATE_SERVER[29] == 'e' && ROTATE_SERVER[11..][18] == ROTATE_SERVER[29];
  }

  lemma GatesNotPids(version: Version)
    ensures forall gate :: gate in Meaning(DefaultGates(version)) ==> !HasSuffix(gate, "SupportPodPidsLimit")
  {
    hide Ge, Meaning, HasSuffix, DefaultGates;
    MeaningOfDefaults(version);
    DifferentGates();
  }

  lemma DefaultGatesGrow(older: Version, newer: Version)
    requires Ge(newer, older)
    ensures forall gate :: gate in Meaning(DefaultGates(older)) ==>
              Get?(Meaning(DefaultGates(newer)), gate) == Some(Meaning(DefaultGates(older))[gate])
  {
    hide Ge, Meaning, DefaultGates;
    MeaningOfDefaults(older);
    MeaningOfDefaults(newer);
    Later(older, newer);
    DifferentGates();
  }

  lemma Later(older: Version, newer: Version)
    requires Ge(newer, older)
    ensures forall t :: t in {V110, V1119, V112, V114, V115B1, V116, V120RC0, V124A, V125, V127} && Ge(older, t) ==> Ge(newer, t)
  {
    forall t | t in {V110, V1119, V112, V114, V115B1, V116, V120RC0, V124A, V125, V127} && Ge(older, t)
      ensures Ge(newer, t)
    {
      GeMonotone(older, newer, t);
    }
  }

  // The same cluster, but for what the component tables of the two versions say.
  predicate SameCluster(facts: KubeletFacts, later: KubeletFacts) {
    later == facts.(pauseImage := later.pauseImage, nodeStatusFrequency := later.nodeStatusFrequency)
  }

  lemma RemovedGrow(older: Version, newer: Version)
    requires Ge(newer, older)
    ensures ToSet(RemovedFlags(older)) <= ToSet(RemovedFlags(newer)) + {PIDS}
  {
    hide Ge, ToSet, DockershimFlags;
    Later(older, newer);
    RemovedSet(older);
    RemovedSet(newer);
  }

  lemma RemovedSet(version: Version)
    ensures ToSet(RemovedFlags(version))
         == (if Ge(version, V110) then {} else {PIDS}) + (if Ge(version, V112) then {"--cadvisor-port"} else {})
            + (if Ge(version, V115B1) then {"--allow-privileged"} else {})
            + (if Ge(version, V124A) then ToSet(DockershimFlags()) else {})
            + (if Ge(version, V127) then {"--master-service-namespace", "--container-runtime"} else {})
  {
    hide Ge, DockershimFlags;
  }

  lemma ClusterFollows(older: Version, newer: Version, facts: KubeletFacts, later: KubeletFacts, wasUpgrade: bool)
    requires Ge(newer, older) && SameCluster(facts, later)
    ensures Follows(ClusterLayers(older, facts, wasUpgrade), ClusterLayers(newer, later, true))
    ensures GatesGrow(ClusterLayers(older, facts, wasUpgrade), ClusterLayers(newer, later, true))
  {
    hide BasicConfig, VersionConfig, Invalid, Ge, ToSet, RemovedFlags, Meaning, NodeLayers.WellFormed, StaticLinux, DefaultGates,
      KubenetPlugin;
    ForcedGrow(older, newer, facts, later, wasUpgrade);
    ClusterWellFormed(older, facts, wasUpgrade);
    ClusterWellFormed(newer, later, true);
    RemovedGrow(older, newer);
    InvalidGrow(older, newer);
    BasicFlags(facts);
    BasicFlags(later);
    VersionFlags(older, facts);
    VersionFlags(newer, later);
    DefaultGatesGrow(older, newer);
    SameStatic(facts, later);
  }

  lemma InvalidGrow(older: Version, newer: Version)
    requires Ge(newer, older)
    ensures ToSet(Invalid(older)) <= ToSet(Invalid(newer))
  {
    hide ToSet;
    InvalidGatesGrow(older, newer, []);
  }

  lemma ForcedGrow(older: Version, newer: Version, facts: KubeletFacts, later: KubeletFacts, wasUpgrade: bool)
    requires SameCluster(facts, later)
    ensures ClusterLayers(older, facts, wasUpgrade).forced.Keys <= ClusterLayers(newer, later, true).forced.Keys
  {
    hide BasicConfig, VersionConfig, StaticLinux, DefaultGates, Invalid, RemovedFlags, KubenetPlugin, Ge, ToSet;
    SameStatic(facts, later);
  }

  lemma SameStatic(facts: KubeletFacts, later: KubeletFacts)
    requires SameCluster(facts, later)
    ensures StaticLinux(facts) == StaticLinux(later) && KubenetPlugin(facts) == KubenetPlugin(later)
  {
  }

  // ---- What sticks ----

  // The table of the older version differs, and the user never set the flag.
  predicate FrequencySticks(facts: KubeletFacts, later: KubeletFacts, user: Entries) {
    facts.nodeStatusFrequency != later.nodeStatusFrequency && FREQUENCY !in user
  }

  // Before 1.10 the user's limit is removed; it is missed where the newer version keeps it.
  ghost predicate LimitLost(older: Version, newer: Version, user: Entries) {
    && !Ge(older, V110) && Ge(newer, V110)
    && PIDS in user && if Ge(newer, V114) then Keeps(user) else user[PIDS] != "-1"
  }

  // The older default flags other than these two are forced, removed or the same later on.
  lemma OnlyFrequencySticks(older: Version, newer: Version, facts: KubeletFacts, later: KubeletFacts, wasUpgrade: bool,
                            user: Entries, key: string)
    requires Ge(newer, older) && SameCluster(facts, later) && key != PIDS
    ensures DefaultSticks(ClusterLayers(older, facts, wasUpgrade), ClusterLayers(newer, later, true), user, key)
            <==> key == FREQUENCY && FrequencySticks(facts, later, user)
  {
    hide Ge, ToSet, RemovedFlags, Invalid, StaticLinux, BasicConfig, VersionConfig, DefaultGates;
    BasicFlags(facts);
    BasicFlags(later);
    VersionFlags(older, facts);
    VersionFlags(newer, later);
    SameBasics(facts, later);
    VersionConfigGrows(older, newer, facts, later, key);
    if key in VersionConfig(newer, later) {
      VersionKeys(newer, later, key);
      NotBasic(facts, key);
    }
    FrequencyKept(newer, later);
  }

  lemma SameBasics(facts: KubeletFacts, later: KubeletFacts)
    requires SameCluster(facts, later)
    ensures forall key :: key in BasicConfig(facts) && key != INFRA_IMAGE && key != FREQUENCY ==>
              Get?(BasicConfig(later), key) == Some(BasicConfig(facts)[key])
  {
    var a, b := BasicConfig(facts), BasicConfig(later);
    assert a[INFRA_IMAGE := ""][FREQUENCY := ""] == b[INFRA_IMAGE := ""][FREQUENCY := ""];
    forall key | key in a && key != INFRA_IMAGE && key != FREQUENCY
      ensures Get?(b, key) == Some(a[key])
    {
      assert a[INFRA_IMAGE := ""][FREQUENCY := ""][key] == a[key];
      assert b[INFRA_IMAGE := ""][FREQUENCY := ""][key] == a[key];
    }
  }

  lemma VersionConfigGrows(older: Version, newer: Version, facts: KubeletFacts, later: KubeletFacts, key: string)
    requires Ge(newer, older) && SameCluster(facts, later)
    ensures key in VersionConfig(older, facts) && key !in ToSet(RemovedFlags(newer)) ==>
              Get?(VersionConfig(newer, later), key) == Some(VersionConfig(older, facts)[key])
  {
    hide Ge, ToSet, DockershimFlags, RemovedFlags;
    Later(older, newer);
    RemovedRuntime(newer);
  }

  lemma RemovedRuntime(version: Version)
    ensures Ge(version, V127) ==> "--container-runtime" in ToSet(RemovedFlags(version))
  {
    hide Ge, ToSet, DockershimFlags, RemovedFlags;
    RemovedSet(version);
  }

  lemma FrequencyNotRemoved(version: Version)
    ensures FREQUENCY !in ToSet(RemovedFlags(version))
  {
    hide Ge, DockershimFlags, RemovedFlags;
    RemovedSet(version);
    FrequencyNotDockershim();
    assert |FREQUENCY| == 30 && |PIDS| == 14 && |"--cadvisor-port"| == 15 && |"--allow-privileged"| == 18;
    assert |"--master-service-namespace"| == 26 && |"--container-runtime"| == 19;
  }

  lemma FrequencyNotDockershim()
    ensures FREQUENCY !in DockershimFlags()
  {
    assert |FREQUENCY| == 30 && FREQUENCY[2] == 'n';
  }

  lemma FrequencyNotCommon(facts: KubeletFacts)
    ensures FREQUENCY !in StaticCommon(facts)
  {
    assert |FREQUENCY| == 30;
  }

  lemma FrequencyNotStatic(facts: KubeletFacts)
    ensures FREQUENCY !in StaticLinux(facts)
  {
    hide StaticCommon;
    FrequencyNotCommon(facts);
    assert |FREQUENCY| == 30 && |CLOUD_PROVIDER| == 16 && |"--client-ca-file"| == 16;
  }

  lemma FrequencyKept(version: Version, facts: KubeletFacts)
    ensures FREQUENCY !in ToSet(RemovedFlags(version)) && FREQUENCY !in ClusterLayers(version, facts, true).forced
  {
    hide Ge, ToSet, RemovedFlags, StaticLinux, BasicConfig, VersionConfig;
    FrequencyNotRemoved(version);
    FrequencyNotStatic(facts);
    assert |FREQUENCY| == 30 && |INFRA_IMAGE| == 27 && |NETWORK_PLUGIN| == 16;
  }

  // What the older configuration leaves behind makes no difference to the upgrade.
  ghost predicate Absorbed(older: Version, newer: Version, facts: KubeletFacts, later: KubeletFacts, wasUpgrade: bool, user: Entries) {
    ClusterConfig(newer, later, true, ClusterConfig(older, facts, wasUpgrade, user)) == ClusterConfig(newer, later, true, user)
  }

  // Configuring at an older version first and then, on upgrade, at a newer one gives what
  // upgrading the user's own flags gives, exactly unless one of the two happens.
  lemma UpgradeAbsorbsUnless(older: Version, newer: Version, facts: KubeletFacts, later: KubeletFacts, wasUpgrade: bool,
                             user: Entries)
    requires Ge(newer, older) && SameCluster(facts, later)
    ensures Absorbed(older, newer, facts, later, wasUpgrade, user)
            <==> !FrequencySticks(facts, later, user) && !LimitLost(older, newer, user)
  {
    hide NodeLayers.Apply, ClusterLayers, Follows, GatesGrow, DefaultSticks, Limit, FrequencySticks, LimitLost;
    var a, b := ClusterLayers(older, facts, wasUpgrade), ClusterLayers(newer, later, true);
    var once := ClusterConfig(older, facts, wasUpgrade, user);
    ClusterFollows(older, newer, facts, later, wasUpgrade);
    GatesAbsorbed(a, b, user);
    LimitAbsorbed(older, newer, facts, later, wasUpgrade, user);
    Names();
    forall key
      ensures Get?(b.Apply(once), key) == Get?(b.Apply(user), key)
              <==> !(key == FREQUENCY && FrequencySticks(facts, later, user)) && !(key == PIDS && LimitLost(older, newer, user))
    {
      if key != PIDS && key != FEATURE_GATES {
        FlagAbsorbed(a, b, user, key);
      }
      if key != PIDS {
        OnlyFrequencySticks(older, newer, facts, later, wasUpgrade, user, key);
      }
    }
    assert Get?(b.Apply(once), FREQUENCY) == Get?(b.Apply(user), FREQUENCY) <==> !FrequencySticks(facts, later, user) by {
      assert |FREQUENCY| == 30 && |PIDS| == 14;
    }
    assert Get?(b.Apply(once), PIDS) == Get?(b.Apply(user), PIDS) <==> !LimitLost(older, newer, user);
    if !FrequencySticks(facts, later, user) && !LimitLost(older, newer, user) {
      EntriesExtensional(b.Apply(once), b.Apply(user));
    }
  }

  lemma LimitAbsorbed(older: Version, newer: Version, facts: KubeletFacts, later: KubeletFacts, wasUpgrade: bool, user: Entries)
    requires Ge(newer, older) && SameCluster(facts, later)
    ensures Get?(ClusterConfig(newer, later, true, ClusterConfig(older, facts, wasUpgrade, user)), PIDS)
            == Get?(ClusterConfig(newer, later, true, user), PIDS)
            <==> !LimitLost(older, newer, user)
  {
    hide ClusterConfig, Atoi, Parse, Binds, Ge;
    var once := ClusterConfig(older, facts, wasUpgrade, user);
    LimitLeft(older, facts, wasUpgrade, user);
    LimitLeft(newer, later, true, user);
    LimitLeft(newer, later, true, once);
    BindsLeft(older, newer, facts, later, wasUpgrade, user);
    Later(older, newer);
    NoLimit();
  }

  lemma BindsLeft(older: Version, newer: Version, facts: KubeletFacts, later: KubeletFacts, wasUpgrade: bool, user: Entries)
    requires Ge(newer, older) && SameCluster(facts, later)
    ensures Binds(Parse(GatesOf(ClusterConfig(older, facts, wasUpgrade, user)))) <==> Binds(Parse(GatesOf(user)))
  {
    hide NodeLayers.Apply, Follows, GatesGrow, Parse, Meaning, DefaultGates, Invalid, HasSuffix, Binds, DefaultConfig, StaticLinux,
      RemovedFlags, ToSet;
    ClusterFollows(older, newer, facts, later, wasUpgrade);
    GatesAbsorbed(ClusterLayers(older, facts, wasUpgrade), ClusterLayers(newer, later, true), user);
    GatesNotPids(older);
    forall gate | gate in ToSet(Invalid(older))
      ensures !HasSuffix(gate, "SupportPodPidsLimit")
    {
      InvalidNotPidsGate(older, gate);
    }
    BindsAgain(Meaning(DefaultGates(older)), Parse(GatesOf(user)), ToSet(Invalid(older)));
  }

  const V109 := Release(1, 9, 0)
  const V124 := Release(1, 24, 0)

  // A limit set by the user of a 1.9 cluster does not survive the upgrade to 1.12.
  lemma LimitIsLost(facts: KubeletFacts)
    ensures !Absorbed(V109, V112, facts, facts, false, map[PIDS := "100"])
  {
    hide Absorbed, Ge;
    OldAndNew();
    assert "100"[0] != "-1"[0];
    UpgradeAbsorbsUnless(V109, V112, facts, facts, false, map[PIDS := "100"]);
  }

  lemma OldAndNew()
    ensures Ge(V112, V109) && !Ge(V109, V110) && Ge(V112, V110) && !Ge(V112, V114)
    ensures Ge(V125, V124)
  {
  }

  // Were the tables of two versions to differ, an upgraded cluster would keep the older value.
  lemma FrequencyIsKept(facts: KubeletFacts)
    requires facts.nodeStatusFrequency != "20s"
    ensures !Absorbed(V124, V125, facts, facts.(nodeStatusFrequency := "20s"), false, map[])
  {
    hide Absorbed, Ge;
    OldAndNew();
    UpgradeAbsorbsUnless(V124, V125, facts, facts.(nodeStatusFrequency := "20s"), false, map[]);
  }
}
