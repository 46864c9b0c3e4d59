// Upgrading the kubelet flags of the masters and of the agent pools, which inherit from the
// cluster's flags of the older version at first and from those of the newer one later.
module KubeletInheritance {
  import opened GoMaps
  import opened Options
  import opened Strings
  import opened Gates
  import opened GateSearch
  import opened Versions
  import opened Layering
  import opened NodeLayering
  import opened Kubelet
  import opened KubeletUpgrade

  // ---- One profile after another ----

  // newer may follow older: the late steps are the same, it forces the same flags or more, and
  // it removes at least the gates and, but for the limit on process ids, the flags that older
  // removes.  Neither adds gates of its own.
  ghost predicate Succeeds(older: NodeLayers, newer: NodeLayers) {
    && older.WellFormed() && newer.WellFormed() && older.taint == newer.taint
    && older.late == newer.late && older.lateForced == newer.lateForced
    && older.forced.Keys <= newer.forced.Keys && older.removed <= newer.removed + {PIDS}
    && ToSet(older.invalid) <= ToSet(newer.invalid) && AddsNothing(older.gates) && AddsNothing(newer.gates)
  }

  ghost predicate AddsNothing(gates: Option<seq<string>>) {
    gates.Some? ==> Meaning(gates.value) == map[]
  }

  // The flag is inherited alike.
  ghost predicate InheritedAlike(older: NodeLayers, newer: NodeLayers, key: string) {
    key !in newer.removed + newer.forced.Keys ==>
      if key in older.inherited then Get?(newer.inherited, key) == Some(older.inherited[key])
      else key in older.late || key == TAINTS ==> key !in newer.inherited
  }

  lemma OrdinaryKept(older: NodeLayers, newer: NodeLayers, m: Entries, key: string)
    requires Succeeds(older, newer) && InheritedAlike(older, newer, key)
    requires key != FEATURE_GATES && key != PIDS && key != TAINTS
    ensures Get?(newer.Apply(older.Apply(m)), key) == Get?(newer.Apply(m), key)
  {
    hide NodeLayers.Apply;
    older.OrdinaryFlag(m, key);
    newer.OrdinaryFlag(m, key);
    newer.OrdinaryFlag(older.Apply(m), key);
  }

  lemma TaintsKept(older: NodeLayers, newer: NodeLayers, m: Entries)
    requires Succeeds(older, newer) && InheritedAlike(older, newer, TAINTS)
    ensures Get?(newer.Apply(older.Apply(m)), TAINTS) == Get?(newer.Apply(m), TAINTS)
  {
    hide NodeLayers.Apply, Contains;
    Names();
    older.TaintsFlag(m);
    newer.TaintsFlag(m);
    newer.TaintsFlag(older.Apply(m));
    if older.taint.Some? && older.Plain(m, TAINTS).Some? {
      ContainedAtEnd(older.Plain(m, TAINTS).value + ",", older.taint.value.full, older.taint.value.key);
    }
  }

  // The gates that a profile starts from: its own string, or else the inherited one.
  ghost function Start(layers: NodeLayers, m: Entries): string {
    Get(layers.inherited + m, FEATURE_GATES)
  }

  lemma GatesLeft(layers: NodeLayers, m: Entries)
    requires layers.WellFormed() && AddsNothing(layers.gates)
    ensures FEATURE_GATES in layers.Apply(m)
    ensures GatesOf(layers.Apply(m)) == Print(Parse(Start(layers, m)) - ToSet(layers.invalid))
    ensures Parse(GatesOf(layers.Apply(m))) == Parse(Start(layers, m)) - ToSet(layers.invalid)
  {
    hide NodeLayers.Apply, Parse, Print, Combine, ToSet, Meaning, NodeLayers.Merged;
    layers.GatesFlag(m);
    OwnFlags(layers, m);
    RemoveRoundTrip(Start(layers, m), layers.invalid);
    if layers.gates.Some? {
      MergeThenRemove(Start(layers, m), layers.gates.value, layers.invalid);
      assert map[] + Parse(Start(layers, m)) == Parse(Start(layers, m));
    }
  }

  // Both cluster maps give the profile the same gates, or it has its own.
  ghost predicate GatesAgree(older: NodeLayers, newer: NodeLayers, m: Entries) {
    FEATURE_GATES in m
    || Parse(GatesOf(older.inherited)) - ToSet(newer.invalid) == Parse(GatesOf(newer.inherited)) - ToSet(newer.invalid)
  }

  lemma GatesKept(older: NodeLayers, newer: NodeLayers, m: Entries)
    requires Succeeds(older, newer)
    ensures Get?(newer.Apply(older.Apply(m)), FEATURE_GATES) == Get?(newer.Apply(m), FEATURE_GATES)
            <==> GatesAgree(older, newer, m)
  {
    hide NodeLayers.Apply, Parse, Print, ToSet, NodeLayers.WellFormed, AddsNothing;
    var once := older.Apply(m);
    GatesLeft(older, m);
    GatesLeft(newer, m);
    GatesLeft(newer, once);
    assert Start(newer, once) == GatesOf(once);
    assert FEATURE_GATES !in m ==> Start(older, m) == GatesOf(older.inherited) && Start(newer, m) == GatesOf(newer.inherited);
    assert FEATURE_GATES in m ==> Start(older, m) == Start(newer, m);
    RemovedInTurn(Parse(Start(older, m)), ToSet(older.invalid), ToSet(newer.invalid));
  }

  lemma RemovedInTurn(m: Entries, gone: set<string>, gone': set<string>)
    requires gone <= gone'
    ensures (m - gone) - gone' == m - gone'
  {
  }

  // Everything but the limit on process ids and the gates is as if the profile had been
  // configured at the newer version alone.
  lemma NodeAbsorbs(older: NodeLayers, newer: NodeLayers, m: Entries)
    requires Succeeds(older, newer) && forall key :: key !in {FEATURE_GATES, PIDS} ==> InheritedAlike(older, newer, key)
    ensures newer.Apply(older.Apply(m)) == newer.Apply(m)
       <==> GatesAgree(older, newer, m) && Get?(newer.Apply(older.Apply(m)), PIDS) == Get?(newer.Apply(m), PIDS)
  {
    hide NodeLayers.Apply, Succeeds, InheritedAlike, GatesAgree;
    Names();
    GatesKept(older, newer, m);
    TaintsKept(older, newer, m);
    if GatesAgree(older, newer, m) && Get?(newer.Apply(older.Apply(m)), PIDS) == Get?(newer.Apply(m), PIDS) {
      forall key
        ensures Get?(newer.Apply(older.Apply(m)), key) == Get?(newer.Apply(m), key)
      {
        if key !in {FEATURE_GATES, PIDS, TAINTS} {
          OrdinaryKept(older, newer, m, key);
        }
      }
      EntriesExtensional(newer.Apply(older.Apply(m)), newer.Apply(m));
    }
  }

  // ---- The process-limit gate ----

  // What the check of the limit finds in a profile's own gates: those of a master are printed
  // before, those of a pool are searched raw.
  ghost predicate FindsOwn(printed: bool, gates: string) {
    if printed then Binds(Parse(gates)) else Contains(gates, PIDS_GATE)
  }

  lemma MergedFinds(layers: NodeLayers, m: Entries)
    requires layers.WellFormed() && AddsNothing(layers.gates)
    ensures Contains(GatesOf(layers.Merged(m)), PIDS_GATE) <==> FindsOwn(layers.gates.Some?, Start(layers, m))
  {
    hide NodeLayers.Own, NodeLayers.Merged, Parse, Print, Meaning, Contains, HasSuffix;
    layers.GatesFlag(m);
    OwnFlags(layers, m);
    if layers.gates.Some? {
      var all := [Start(layers, m)] + layers.gates.value;
      MeaningConcat([Start(layers, m)], layers.gates.value);
      MeaningOne(Start(layers, m));
      assert Meaning(all) == Parse(Start(layers, m));
      PrintedFinds(Meaning(all), all);
    }
  }

  lemma PrintedFinds(m: Entries, inputs: seq<string>)
    requires m == Meaning(inputs)
    ensures Contains(Print(m), PIDS_GATE) <==> Binds(m)
  {
    hide Print, Meaning, Contains, HasSuffix;
    MeaningClean(inputs);
    assert PIDS_GATE == "SupportPodPidsLimit" + "=" + "true";
    ContainsPrinted(m, "SupportPodPidsLimit", "true");
  }

  // A gate string that was printed binds what it contains, whatever was removed before.
  lemma PrunedFinds(version: Version, gates: string)
    ensures var pruned := Print(Parse(gates) - ToSet(Invalid(version)));
            && (Contains(pruned, PIDS_GATE) <==> Binds(Parse(gates)))
            && (Binds(Parse(pruned)) <==> Binds(Parse(gates)))
  {
    hide Invalid, Contains, Parse, Print, ToSet, HasSuffix;
    PrunedPidsGate(gates, version);
    assert BindsPidsGate(gates) <==> Binds(Parse(gates));
    RemoveRoundTrip(gates, Invalid(version));
    forall gate | gate in ToSet(Invalid(version))
      ensures !HasSuffix(gate, "SupportPodPidsLimit")
    {
      InvalidNotPidsGate(version, gate);
    }
    BindsAgain(map[], Parse(gates), ToSet(Invalid(version)));
    assert map[] + Parse(gates) == Parse(gates);
  }

  // ---- A gate that is bound is contained ----

  lemma {:induction false} BoundSomewhere(m: Entries, items: seq<string>, key: string)
    requires key in ApplyItems(m, items) && key !in m
    ensures exists i :: 0 <= i < |items| && PairOf(items[i]).Some? && PairOf(items[i]).value == (key, ApplyItems(m, items)[key])
    decreases items
  {
    var next := ApplyItem(m, items[0]);
    if key in next {
      ApplyItemsIsUnion(next, items[1..]);
      assert PairOf(items[0]).value == (key, next[key]);
    } else {
      BoundSomewhere(next, items[1..], key);
      var i :| 0 <= i < |items[1..]| && PairOf(items[1..][i]).Some?
               && PairOf(items[1..][i]).value == (key, ApplyItems(next, items[1..])[key]);
      assert items[i + 1] == items[1..][i];
    }
  }

  lemma {:induction false} TrimLeftEnds(s: string)
    ensures |TrimLeft(s)| <= |s| && TrimLeft(s) == s[|s| - |TrimLeft(s)|..]
  {
    if s != "" && s[0] == ' ' {
      TrimLeftEnds(s[1..]);
    }
  }

  lemma TrimWithin(item: string, sub: string)
    requires Contains(Trim(item), sub)
    ensures Contains(item, sub)
  {
    hide TrimLeft, TrimRight;
    TrimLeftEnds(item);
    var left := TrimLeft(item);
    var s := Trim(item);
    assert s == left[..|s|];
    var at: nat :| at <= |s| && OccursAt(s, sub, at);
    OccursWithin(item, |item| - |left|, |s|, sub, at);
  }

  lemma OccursWithin(whole: string, from: nat, len: nat, sub: string, at: nat)
    requires from + len <= |whole| && OccursAt(whole[from..][..len], sub, at)
    ensures Contains(whole, sub)
  {
    assert whole[from + at..from + at + |sub|] == whole[from..][..len][at..at + |sub|];
    assert OccursAt(whole, sub, from + at);
  }

  lemma BoundIsContained(gates: string)
    requires Binds(Parse(gates))
    ensures Contains(gates, PIDS_GATE)
  {
    hide Contains, HasSuffix, Split, Join, ApplyItems, Trim;
    var key :| key in Parse(gates) && HasSuffix(key, "SupportPodPidsLimit") && "true" <= Parse(gates)[key];
    var items := Split(gates, ',');
    BoundSomewhere(map[], items, key);
    var i :| 0 <= i < |items| && PairOf(items[i]).Some? && PairOf(items[i]).value == (key, Parse(gates)[key]);
    PairIsItem(items[i]);
    MatchFrom(key, Parse(gates)[key], "SupportPodPidsLimit", "true");
    assert PIDS_GATE == "SupportPodPidsLimit" + "=" + "true";
    TrimWithin(items[i], PIDS_GATE);
    PartInJoin(items, i, PIDS_GATE);
    JoinSplit(gates, ',');
  }

  lemma PairIsItem(item: string)
    requires PairOf(item).Some?
    ensures Trim(item) == PairOf(item).value.0 + "=" + PairOf(item).value.1
  {
    hide Split, Trim;
    JoinSplit(Trim(item), '=');
    var parts := Split(Trim(item), '=');
    assert parts[1..] == [parts[1]];
  }

  // ---- The limit on process ids ----

  predicate Positive(limit: string) {
    Atoi(limit).Some? && Atoi(limit).value > 0
  }

  // What the profile's limit becomes, when the gate is found or not.
  function LimitAfter(version: Version, isUpgrade: bool, limit: Option<string>, found: bool): Option<string> {
    if !Ge(version, V110) then None
    else if isUpgrade && Ge(version, V114) && !(found && limit.Some? && Positive(limit.value)) then Some("-1")
    else limit
  }

  // The layers are those of a master or a pool.
  ghost predicate OfNode(layers: NodeLayers, version: Version, isUpgrade: bool, cluster: Entries) {
    && layers.WellFormed() && AddsNothing(layers.gates) && layers.inherited == cluster
    && layers.checkPids == (isUpgrade && Ge(version, V114))
    && layers.removed == ToSet(RemovedFlags(version)) && layers.invalid == Invalid(version)
  }

  lemma LimitOfNode(layers: NodeLayers, version: Version, isUpgrade: bool, cluster: Entries, m: Entries)
    requires OfNode(layers, version, isUpgrade, cluster)
    ensures Get?(layers.Apply(m), PIDS)
         == LimitAfter(version, isUpgrade, Get?(cluster + m, PIDS), FindsOwn(layers.gates.Some?, Start(layers, m)))
  {
    hide NodeLayers.Apply, NodeLayers.Merged, Invalid, Ge, ToSet, RemovedFlags, Contains, Atoi, FindsOwn, Start;
    PidsRemovedWhenOld(version);
    PidsStayUnlessOld(version);
    MergedFinds(layers, m);
    if !Ge(version, V110) {
      PidsRemoved(layers, m);
    } else {
      NoLimit();
      layers.PidsFlag(m);
    }
  }

  // The cluster's maps of the two versions, as far as the limit goes.
  ghost predicate ClusterLimits(older: Version, newer: Version, c1: Entries, c2: Entries) {
    && (Ge(older, V110) <==> PIDS in c1)
    && Get?(c2, PIDS) == LimitAfter(newer, true, if PIDS in c1 then Some(c1[PIDS]) else Some("-1"), Binds(Parse(GatesOf(c1))))
    && (Binds(Parse(GatesOf(c2))) <==> Binds(Parse(GatesOf(c1))))
    && (Contains(GatesOf(c1), PIDS_GATE) <==> Binds(Parse(GatesOf(c1))))
    && (Contains(GatesOf(c2), PIDS_GATE) <==> Binds(Parse(GatesOf(c1))))
  }

  // Whether the check of a profile finds the gate in what the older cluster map offers.
  ghost predicate Finds(printed: bool, c1: Entries, m: Entries) {
    if FEATURE_GATES in m then FindsOwn(printed, GatesOf(m)) else Binds(Parse(GatesOf(c1)))
  }

  // The limit is lost before 1.10; and after 1.14 it differs if the profile has gates of its
  // own that bind the process-limit gate and the cluster's do not, or contain it unbound.
  ghost predicate LimitDiffers(older: Version, newer: Version, printed: bool, c1: Entries, m: Entries) {
    if !Ge(older, V110) then
      && Ge(newer, V110) && PIDS in m
      && (if Ge(newer, V114) then Positive(m[PIDS]) && Finds(printed, c1, m) else m[PIDS] != "-1")
    else
      && Ge(newer, V114) && FEATURE_GATES in m && Positive(Get(c1 + m, PIDS))
      && Binds(Parse(GatesOf(m))) != (FindsOwn(printed, GatesOf(m)) && (PIDS in m || Binds(Parse(GatesOf(c1)))))
  }

  lemma FindsStart(layers: NodeLayers, cluster: Entries, c1: Entries, m: Entries)
    requires layers.inherited == cluster && (Binds(Parse(GatesOf(cluster))) <==> Binds(Parse(GatesOf(c1))))
    requires Contains(GatesOf(cluster), PIDS_GATE) <==> Binds(Parse(GatesOf(c1)))
    ensures FindsOwn(layers.gates.Some?, Start(layers, m)) <==> Finds(layers.gates.Some?, c1, m)
    ensures Binds(Parse(Start(layers, m))) <==> Binds(Parse(GatesOf(if FEATURE_GATES in m then m else c1)))
  {
    hide Contains, Parse, Binds;
  }

  lemma BoundIsFound(printed: bool, gates: string)
    ensures Binds(Parse(gates)) ==> FindsOwn(printed, gates)
  {
    hide Contains, Parse, Binds;
    if Binds(Parse(gates)) {
      BoundIsContained(gates);
    }
  }

  lemma LimitKept(older: Version, newer: Version, wasUpgrade: bool, a: NodeLayers, b: NodeLayers, c1: Entries, c2: Entries, m: Entries)
    requires Ge(newer, older) && OfNode(a, older, wasUpgrade, c1) && OfNode(b, newer, true, c2) && ClusterLimits(older, newer, c1, c2)
    requires a.gates.Some? == b.gates.Some?
    ensures Get?(b.Apply(a.Apply(m)), PIDS) == Get?(b.Apply(m), PIDS) <==> !LimitDiffers(older, newer, b.gates.Some?, c1, m)
  {
    hide NodeLayers.Apply, Ge, Parse, Print, Contains, Atoi, Binds, ToSet, Invalid, RemovedFlags, FindsOwn, Start, NodeLayers.WellFormed,
      AddsNothing;
    var once := a.Apply(m);
    LimitOfNode(a, older, wasUpgrade, c1, m);
    LimitOfNode(b, newer, true, c2, m);
    LimitOfNode(b, newer, true, c2, once);
    GatesLeft(a, m);
    PrunedFinds(older, Start(a, m));
    StartOwn(b, once);
    assert FindsOwn(b.gates.Some?, GatesOf(once)) <==> Binds(Parse(Start(a, m))) by {
      FindsEither(b.gates.Some?, GatesOf(once));
    }
    FindsStart(a, c1, c1, m);
    FindsStart(b, c2, c1, m);
    BoundIsFound(b.gates.Some?, GatesOf(m));
    Later(older, newer);
    NoLimit();
  }

  lemma StartOwn(layers: NodeLayers, m: Entries)
    requires FEATURE_GATES in m
    ensures Start(layers, m) == GatesOf(m)
  {
  }

  lemma FindsEither(printed: bool, gates: string)
    requires Contains(gates, PIDS_GATE) <==> Binds(Parse(gates))
    ensures FindsOwn(printed, gates) <==> Binds(Parse(gates))
  {
  }

  // ---- The two cluster maps ----

  lemma PrintedCluster(version: Version, facts: KubeletFacts, isUpgrade: bool, m: Entries)
    ensures var gates := GatesOf(ClusterConfig(version, facts, isUpgrade, m));
            Contains(gates, PIDS_GATE) <==> Binds(Parse(gates))
  {
    hide NodeLayers.Apply, NodeLayers.Merged, Contains, Parse, Print, Binds, ToSet, Invalid, RemovedFlags, StaticLinux, BasicConfig,
      VersionConfig, DefaultGates;
    var layers := ClusterLayers(version, facts, isUpgrade);
    ClusterWellFormed(version, facts, isUpgrade);
    layers.GatesFlag(m);
    PrunedFinds(version, layers.MergedGates(GatesOf(layers.Own(m))));
  }

  lemma ClusterLimitsHold(older: Version, newer: Version, facts: KubeletFacts, later: KubeletFacts, wasUpgrade: bool, user: Entries)
    requires Ge(newer, older) && SameCluster(facts, later)
    ensures var c1 := ClusterConfig(older, facts, wasUpgrade, user);
            ClusterLimits(older, newer, c1, ClusterConfig(newer, later, true, c1))
  {
    hide ClusterConfig, Atoi, Parse, Binds, Ge, Contains;
    var c1 := ClusterConfig(older, facts, wasUpgrade, user);
    LimitLeft(older, facts, wasUpgrade, user);
    LimitLeft(newer, later, true, c1);
    SameVersion(newer);
    BindsLeft(newer, newer, later, later, true, c1);
    PrintedCluster(older, facts, wasUpgrade, user);
    PrintedCluster(newer, later, true, c1);
    NoLimit();
  }

  lemma SameVersion(version: Version)
    ensures Ge(version, version)
  {
    CompareFlip(version, version);
  }

  // But for the image, what the newer configuration forces is what the older one forced.
  lemma ForcedAlike(older: Version, newer: Version, facts: KubeletFacts, later: KubeletFacts, wasUpgrade: bool, key: string)
    requires SameCluster(facts, later) && key != INFRA_IMAGE
    ensures Get?(ClusterLayers(older, facts, wasUpgrade).forced, key) == Get?(ClusterLayers(newer, later, true).forced, key)
  {
    hide BasicConfig, VersionConfig, StaticLinux, DefaultGates, Invalid, RemovedFlags, KubenetPlugin, Ge, ToSet;
    SameStatic(facts, later);
  }

  // A profile without late steps, as the cluster's is.
  ghost predicate Bare(layers: NodeLayers) {
    layers.WellFormed() && layers.taint.None? && layers.late == map[] && layers.lateForced == map[]
  }

  lemma BareFlag(layers: NodeLayers, m: Entries, key: string)
    requires Bare(layers) && key != FEATURE_GATES && key != PIDS
    ensures Get?(layers.Apply(m), key)
         == if key in layers.removed then None
            else if key in layers.forced then Some(layers.forced[key])
            else if key in m then Some(m[key])
            else Get?(layers.inherited, key)
  {
    hide NodeLayers.Apply;
    if key == TAINTS {
      layers.TaintsFlag(m);
    } else {
      layers.OrdinaryFlag(m, key);
    }
  }

  // A flag of the older cluster map is in the newer one, with the same value.
  lemma ClusterKeeps(older: Version, newer: Version, facts: KubeletFacts, later: KubeletFacts, wasUpgrade: bool, user: Entries,
                     key: string)
    requires Ge(newer, older) && SameCluster(facts, later)
    requires key !in {FEATURE_GATES, PIDS, INFRA_IMAGE} && key !in ToSet(RemovedFlags(newer))
    ensures var c1 := ClusterConfig(older, facts, wasUpgrade, user);
            var c2 := ClusterConfig(newer, later, true, c1);
            if key in c1 then Get?(c2, key) == Some(c1[key]) else key in {PROTECT_KERNEL, TAINTS} ==> key !in c2
  {
    hide NodeLayers.Apply, NodeLayers.WellFormed, BasicConfig, VersionConfig, StaticLinux, DefaultGates, Invalid, RemovedFlags,
      KubenetPlugin, Ge, ToSet;
    var c1 := ClusterConfig(older, facts, wasUpgrade, user);
    ClusterWellFormed(older, facts, wasUpgrade);
    ClusterWellFormed(newer, later, true);
    BareFlag(ClusterLayers(older, facts, wasUpgrade), user, key);
    BareFlag(ClusterLayers(newer, later, true), c1, key);
    ForcedAlike(older, newer, facts, later, wasUpgrade, key);
    RemovedGrow(older, newer);
    if key in {PROTECT_KERNEL, TAINTS} {
      NoDefault(newer, later, key);
      NoDefaultForced(newer, later, key);
    }
  }

  // Neither of these two is among the cluster's own flags.
  lemma NoDefault(version: Version, facts: KubeletFacts, key: string)
    requires key in {PROTECT_KERNEL, TAINTS}
    ensures key !in DefaultConfig(version, facts)
  {
    hide BasicConfig, VersionConfig;
    assert |PROTECT_KERNEL| == 25 && |TAINTS| == 22 && PROTECT_KERNEL[2] == 'p';
    if key == PROTECT_KERNEL {
      NoBasicProtect(facts, key);
    } else {
      NoBasicTaint(facts, key);
    }
    assert key !in VersionNames() by {
      assert |"--rotate-certificates"| == 21 && |"--authentication-token-webhook"| == 30 && |"--read-only-port"| == 16;
      assert |"--container-runtime"| == 19 && |"--container-runtime-endpoint"| == 28;
      assert |"--runtime-request-timeout"| == 25 && "--runtime-request-timeout"[2] == 'r';
    }
    if key in VersionConfig(version, facts) {
      VersionKeys(version, facts, key);
    }
  }

  lemma NoBasicProtect(facts: KubeletFacts, key: string)
    requires |key| == 25 && key[2] == 'p'
    ensures key !in BasicConfig(facts)
  {
  }

  lemma NoBasicTaint(facts: KubeletFacts, key: string)
    requires |key| == 22
    ensures key !in BasicConfig(facts)
  {
  }

  lemma NoDefaultForced(version: Version, facts: KubeletFacts, key: string)
    requires key in {PROTECT_KERNEL, TAINTS}
    ensures key !in ClusterLayers(version, facts, true).forced
  {
    hide BasicConfig, VersionConfig, StaticLinux, DefaultGates, Invalid, RemovedFlags, Ge, ToSet;
    assert |PROTECT_KERNEL| == 25 && |TAINTS| == 22 && |INFRA_IMAGE| == 27 && |NETWORK_PLUGIN| == 16;
    LinuxLeavesTaints(facts);
    LinuxLeavesProtect(facts);
  }

  lemma LinuxLeavesProtect(facts: KubeletFacts)
    ensures PROTECT_KERNEL !in StaticLinux(facts)
  {
    hide StaticCommon;
    CommonLeavesProtect(facts);
    assert |PROTECT_KERNEL| == 25;
  }

  lemma CommonLeavesProtect(facts: KubeletFacts)
    ensures PROTECT_KERNEL !in StaticCommon(facts)
  {
    assert |PROTECT_KERNEL| == 25;
  }

  // ---- Gates that lag behind ----

  // A gate that the newer version adds to the cluster's gates, for a cluster upgraded from
  // this map.
  ghost predicate Lags(newer: Version, c1: Entries, gate: string) {
    gate in GateMap(newer) && gate !in Parse(GatesOf(c1)) && gate !in ToSet(Invalid(newer))
  }

  lemma GatesLag(newer: Version, later: KubeletFacts, c1: Entries)
    ensures var c2 := ClusterConfig(newer, later, true, c1);
            Parse(GatesOf(c1)) - ToSet(Invalid(newer)) == Parse(GatesOf(c2)) - ToSet(Invalid(newer))
            <==> forall gate :: !Lags(newer, c1, gate)
  {
    hide NodeLayers.Apply, BasicConfig, VersionConfig, StaticLinux, DefaultGates, Invalid, RemovedFlags, KubenetPlugin, Ge, ToSet,
      Parse, Meaning, Follows, GatesGrow, GateMap;
    var layers := ClusterLayers(newer, later, true);
    SameVersion(newer);
    ClusterFollows(newer, newer, later, later, true);
    GatesAbsorbed(layers, layers, c1);
    MeaningOfDefaults(newer);
    UnionLags(GateMap(newer), Parse(GatesOf(c1)), ToSet(Invalid(newer)));
    assert forall gate :: Lags(newer, c1, gate) <==> gate in GateMap(newer).Keys - Parse(GatesOf(c1)).Keys - ToSet(Invalid(newer));
  }

  lemma UnionLags(added: Entries, m: Entries, gone: set<string>)
    ensures m - gone == ((added + m) - gone) - gone <==> added.Keys - m.Keys - gone == {}
  {
    if added.Keys - m.Keys - gone == {} {
      forall gate
        ensures Get?(m - gone, gate) == Get?(((added + m) - gone) - gone, gate)
      {
        assert gate !in added.Keys - m.Keys - gone;
      }
      EntriesExtensional(m - gone, ((added + m) - gone) - gone);
      assert m - gone == ((added + m) - gone) - gone;
    } else {
      var gate :| gate in added.Keys - m.Keys - gone;
      assert gate in ((added + m) - gone) - gone && gate !in m - gone;
    }
  }

  // ---- The masters and the pools ----

  lemma Alike(older: Version, newer: Version, facts: KubeletFacts, later: KubeletFacts, wasUpgrade: bool, user: Entries,
              a: NodeLayers, b: NodeLayers, key: string)
    requires Ge(newer, older) && SameCluster(facts, later) && key !in {FEATURE_GATES, PIDS}
    requires a.inherited == ClusterConfig(older, facts, wasUpgrade, user)
    requires b.inherited == ClusterConfig(newer, later, true, a.inherited)
    requires b.removed == ToSet(RemovedFlags(newer)) && INFRA_IMAGE in b.forced && a.late.Keys <= {PROTECT_KERNEL}
    ensures InheritedAlike(a, b, key)
  {
    hide ClusterConfig, RemovedFlags, ToSet, Ge;
    if key !in b.removed + b.forced.Keys {
      ClusterKeeps(older, newer, facts, later, wasUpgrade, user, key);
    }
  }

  lemma MasterFollows(older: Version, newer: Version, facts: KubeletFacts, later: KubeletFacts, wasUpgrade: bool,
                      c1: Entries, c2: Entries, p: NodeProfile, anyAgentIsLinux: bool, a: NodeLayers, b: NodeLayers)
    requires Ge(newer, older) && SameCluster(facts, later)
    requires a == MasterLayers(older, facts, wasUpgrade, c1, p.isVHD, p.isUbuntu, anyAgentIsLinux)
    requires b == MasterLayers(newer, later, true, c2, p.isVHD, p.isUbuntu, anyAgentIsLinux)
    ensures Succeeds(a, b) && OfNode(a, older, wasUpgrade, c1) && OfNode(b, newer, true, c2)
    ensures INFRA_IMAGE in b.forced && a.late.Keys <= {PROTECT_KERNEL} && a.gates.Some? && b.gates.Some?
  {
    hide Invalid, RemovedFlags, Ge, ToSet, Meaning, NodeLayers.WellFormed, Contains;
    MasterWellFormed(older, facts, wasUpgrade, c1, p.isVHD, p.isUbuntu, anyAgentIsLinux);
    MasterWellFormed(newer, later, true, c2, p.isVHD, p.isUbuntu, anyAgentIsLinux);
    RemovedGrow(older, newer);
    InvalidGrow(older, newer);
    NoGates();
  }

  lemma NoGates()
    ensures Meaning([""]) == map[]
  {
    hide Parse;
    MeaningOne("");
    ParseEmpty();
  }

  lemma PoolFollows(older: Version, newer: Version, facts: KubeletFacts, later: KubeletFacts, wasUpgrade: bool,
                    c1: Entries, c2: Entries, p: NodeProfile, a: NodeLayers, b: NodeLayers)
    requires Ge(newer, older) && SameCluster(facts, later)
    requires a == PoolLayers(older, facts, wasUpgrade, c1, p.isWindows, p.isVHD, p.isUbuntu)
    requires b == PoolLayers(newer, later, true, c2, p.isWindows, p.isVHD, p.isUbuntu)
    ensures Succeeds(a, b) && OfNode(a, older, wasUpgrade, c1) && OfNode(b, newer, true, c2)
    ensures INFRA_IMAGE in b.forced && a.late.Keys <= {PROTECT_KERNEL} && a.gates.None? && b.gates.None?
  {
    hide Invalid, RemovedFlags, Ge, ToSet, Meaning, NodeLayers.WellFormed, Contains, StaticLinux, StaticWindows;
    PoolWellFormed(older, facts, wasUpgrade, c1, p.isWindows, p.isVHD, p.isUbuntu);
    PoolWellFormed(newer, later, true, c2, p.isWindows, p.isVHD, p.isUbuntu);
    RemovedGrow(older, newer);
    InvalidGrow(older, newer);
    SameStatic(facts, later);
    SameWindows(facts, later);
  }

  lemma SameWindows(facts: KubeletFacts, later: KubeletFacts)
    requires SameCluster(facts, later)
    ensures StaticWindows(facts) == StaticWindows(later)
  {
    hide WindowsPaths;
  }

  // The gates or the limit of the profile differ from what the newer version alone gives.
  ghost predicate Differs(older: Version, newer: Version, printed: bool, c1: Entries, user: Entries) {
    (FEATURE_GATES !in user && exists gate :: Lags(newer, c1, gate)) || LimitDiffers(older, newer, printed, c1, user)
  }

  // Both, from what they have in common.
  lemma ProfileAbsorbs(older: Version, newer: Version, facts: KubeletFacts, later: KubeletFacts, wasUpgrade: bool,
                       cluster: Entries, a: NodeLayers, b: NodeLayers, user: Entries)
    requires Ge(newer, older) && SameCluster(facts, later) && Succeeds(a, b)
    requires OfNode(a, older, wasUpgrade, ClusterConfig(older, facts, wasUpgrade, cluster))
    requires OfNode(b, newer, true, ClusterConfig(newer, later, true, a.inherited))
    requires INFRA_IMAGE in b.forced && a.late.Keys <= {PROTECT_KERNEL} && a.gates.Some? == b.gates.Some?
    ensures b.Apply(a.Apply(user)) == b.Apply(user) <==> !Differs(older, newer, b.gates.Some?, a.inherited, user)
  {
    hide NodeLayers.Apply, ClusterConfig, Ge, Succeeds, InheritedAlike, LimitDiffers, Lags, Parse, Print, ToSet, Invalid, RemovedFlags,
      ClusterLimits;
    forall key | key !in {FEATURE_GATES, PIDS}
      ensures InheritedAlike(a, b, key)
    {
      Alike(older, newer, facts, later, wasUpgrade, cluster, a, b, key);
    }
    NodeAbsorbs(a, b, user);
    GatesLag(newer, later, a.inherited);
    ClusterLimitsHold(older, newer, facts, later, wasUpgrade, cluster);
    LimitKept(older, newer, wasUpgrade, a, b, a.inherited, b.inherited, user);
  }

  // What the older configurations leave behind makes no difference to a master's upgrade.
  ghost predicate MasterAbsorbed(older: Version, newer: Version, facts: KubeletFacts, later: KubeletFacts, wasUpgrade: bool,
                                 c1: Entries, p: NodeProfile, anyAgentIsLinux: bool, user: Entries) {
    var c2 := ClusterConfig(newer, later, true, c1);
    var once := MasterConfig(older, facts, wasUpgrade, c1, p, anyAgentIsLinux, user);
    MasterConfig(newer, later, true, c2, p, anyAgentIsLinux, once) == MasterConfig(newer, later, true, c2, p, anyAgentIsLinux, user)
  }

  ghost predicate PoolAbsorbed(older: Version, newer: Version, facts: KubeletFacts, later: KubeletFacts, wasUpgrade: bool,
                               c1: Entries, p: NodeProfile, user: Entries) {
    var c2 := ClusterConfig(newer, later, true, c1);
    var once := PoolConfig(older, facts, wasUpgrade, c1, p, user);
    PoolConfig(newer, later, true, c2, p, once) == PoolConfig(newer, later, true, c2, p, user)
  }

  // The masters' flags after an upgrade are those of a cluster that was never configured at
  // the older version, unless its gates lag behind or the limit on process ids differs.
  lemma MasterAbsorbsUnless(older: Version, newer: Version, facts: KubeletFacts, later: KubeletFacts, wasUpgrade: bool,
                            cluster: Entries, p: NodeProfile, anyAgentIsLinux: bool, user: Entries)
    requires Ge(newer, older) && SameCluster(facts, later)
    ensures var c1 := ClusterConfig(older, facts, wasUpgrade, cluster);
            MasterAbsorbed(older, newer, facts, later, wasUpgrade, c1, p, anyAgentIsLinux, user)
            <==> !Differs(older, newer, true, c1, user)
  {
    hide ClusterConfig, MasterLayers, NodeLayers.Apply, Succeeds, OfNode, Differs, Ge;
    var c1 := ClusterConfig(older, facts, wasUpgrade, cluster);
    var c2 := ClusterConfig(newer, later, true, c1);
    var a := MasterLayers(older, facts, wasUpgrade, c1, p.isVHD, p.isUbuntu, anyAgentIsLinux);
    var b := MasterLayers(newer, later, true, c2, p.isVHD, p.isUbuntu, anyAgentIsLinux);
    MasterFollows(older, newer, facts, later, wasUpgrade, c1, c2, p, anyAgentIsLinux, a, b);
    NodeInherits(a, older, wasUpgrade, c1);
    ProfileAbsorbs(older, newer, facts, later, wasUpgrade, cluster, a, b, user);
  }

  lemma NodeInherits(layers: NodeLayers, version: Version, isUpgrade: bool, cluster: Entries)
    requires OfNode(layers, version, isUpgrade, cluster)
    ensures layers.inherited == cluster
  {
  }

  // The same for the flags of a pool.
  lemma PoolAbsorbsUnless(older: Version, newer: Version, facts: KubeletFacts, later: KubeletFacts, wasUpgrade: bool,
                          cluster: Entries, p: NodeProfile, user: Entries)
    requires Ge(newer, older) && SameCluster(facts, later)
    ensures var c1 := ClusterConfig(older, facts, wasUpgrade, cluster);
            PoolAbsorbed(older, newer, facts, later, wasUpgrade, c1, p, user)
            <==> !Differs(older, newer, false, c1, user)
  {
    hide ClusterConfig, PoolLayers, NodeLayers.Apply, Succeeds, OfNode, Differs, Ge;
    var c1 := ClusterConfig(older, facts, wasUpgrade, cluster);
    var c2 := ClusterConfig(newer, later, true, c1);
    var a := PoolLayers(older, facts, wasUpgrade, c1, p.isWindows, p.isVHD, p.isUbuntu);
    var b := PoolLayers(newer, later, true, c2, p.isWindows, p.isVHD, p.isUbuntu);
    PoolFollows(older, newer, facts, later, wasUpgrade, c1, c2, p, a, b);
    NodeInherits(a, older, wasUpgrade, c1);
    ProfileAbsorbs(older, newer, facts, later, wasUpgrade, cluster, a, b, user);
  }

  // It happens to every cluster without gates: the masters keep the gates of 1.24 in 1.25,
  // while the cluster's own flags get the default gate of 1.25.
  lemma PodSecurityLags(facts: KubeletFacts, p: NodeProfile, anyAgentIsLinux: bool)
    ensures !MasterAbsorbed(V124, V125, facts, facts, false, ClusterConfig(V124, facts, false, map[]), p, anyAgentIsLinux, map[])
  {
    hide ClusterConfig, MasterAbsorbed, Ge, Parse, ToSet, Invalid, LimitDiffers;
    OldAndNew();
    var c1 := ClusterConfig(V124, facts, false, map[]);
    PodSecurityNew(facts);
    assert Lags(V125, c1, POD_SECURITY);
    MasterAbsorbsUnless(V124, V125, facts, facts, false, map[], p, anyAgentIsLinux, map[]);
  }

  lemma PodSecurityNew(facts: KubeletFacts)
    ensures POD_SECURITY in GateMap(V125)
    ensures POD_SECURITY !in ToSet(Invalid(V125))
    ensures POD_SECURITY !in Parse(GatesOf(ClusterConfig(V124, facts, false, map[])))
  {
    hide NodeLayers.Apply, BasicConfig, VersionConfig, StaticLinux, DefaultGates, RemovedFlags, KubenetPlugin, Parse, Meaning, Follows,
      GatesGrow;
    SecurityVersions();
    DifferentGates();
    SameVersion(V124);
    ClusterFollows(V124, V124, facts, facts, false);
    GatesAbsorbed(ClusterLayers(V124, facts, false), ClusterLayers(V124, facts, true), map[]);
    MeaningOfDefaults(V124);
    ParseEmpty();
  }

  lemma SecurityVersions()
    ensures Ge(V125, V125) && !Ge(V124, V125) && POD_SECURITY !in ToSet(Invalid(V125))
  {
  }
}
