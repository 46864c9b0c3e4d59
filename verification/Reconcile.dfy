// pkg/api/addons.go and pkg/api/components.go on values: what filling in the defaults makes
// of a list of addons or components.  An entry stands for a KubernetesAddon or a
// KubernetesComponent; the latter has no mode and no pools.
module Reconcile {

  import opened Options

  datatype Container = Container(
    name: string, image: string, cpuRequests: string, memoryRequests: string, cpuLimits: string, memoryLimits: string)

  datatype Pool = Pool(name: string, config: map<string, string>)

  datatype Addon = Addon(
    name: string, enabled: Option<bool>, mode: string, containers: seq<Container>, config: map<string, string>,
    pools: seq<Pool>, data: string)

  // ---- Searching by name ----

  function IndexOf(names: seq<string>, name: string): (i: int)
    ensures -1 <= i < |names|
    ensures i >= 0 ==> names[i] == name
    ensures forall j :: 0 <= j < (if i < 0 then |names| else i) ==> names[j] != name
  {
    if names == [] then -1 else
      var n := |names| - 1;
      var i := IndexOf(names[..n], name);
      if i >= 0 then i else if names[n] == name then n else -1
  }

  ghost predicate Distinct(names: seq<string>) {
    forall i, j :: 0 <= i < j < |names| ==> names[i] != names[j]
  }

  function ContainerNames(cs: seq<Container>): (names: seq<string>)
    ensures |names| == |cs| && forall i :: 0 <= i < |cs| ==> names[i] == cs[i].name
  {
    seq(|cs|, i requires 0 <= i < |cs| => cs[i].name)
  }

  function Names(l: seq<Addon>): (names: seq<string>)
    ensures |names| == |l| && forall i :: 0 <= i < |l| ==> names[i] == l[i].name
  {
    seq(|l|, i requires 0 <= i < |l| => l[i].name)
  }

  // ---- One entry ----

  function Or(s: string, default: string): string {
    if s == "" then default else s
  }

  // A container with the empty fields taken from a default; an upgrade always takes the image.
  function Fill(c: Container, d: Container, isUpgrade: bool): Container {
    Container(c.name, if isUpgrade then d.image else Or(c.image, d.image),
              Or(c.cpuRequests, d.cpuRequests), Or(c.memoryRequests, d.memoryRequests),
              Or(c.cpuLimits, d.cpuLimits), Or(c.memoryLimits, d.memoryLimits))
  }

  // Only the first container of a name is filled in.
  function Filled(cs: seq<Container>, ds: seq<Container>, isUpgrade: bool, i: nat): Container
    requires i < |cs|
  {
    var k := IndexOf(ContainerNames(ds), cs[i].name);
    if k >= 0 && IndexOf(ContainerNames(cs), cs[i].name) == i then Fill(cs[i], ds[k], isUpgrade) else cs[i]
  }

  function MissingContainers(ds: seq<Container>, names: seq<string>): (r: seq<Container>)
    ensures |r| <= |ds|
    ensures forall c :: c in r <==> c in ds && c.name !in names
  {
    if ds == [] then [] else
      var d := ds[|ds| - 1];
      assert ds == ds[..|ds| - 1] + [d];
      MissingContainers(ds[..|ds| - 1], names) + (if d.name in names then [] else [d])
  }

  // The entry's containers, in their order, and then the default ones it does not have.
  function Merged(cs: seq<Container>, ds: seq<Container>, isUpgrade: bool): (r: seq<Container>)
    ensures |r| >= |cs|
    ensures forall i :: 0 <= i < |cs| ==> r[i] == Filled(cs, ds, isUpgrade, i)
  {
    seq(|cs|, i requires 0 <= i < |cs| => Filled(cs, ds, isUpgrade, i)) + MissingContainers(ds, ContainerNames(cs))
  }

  function FilledConfig(config: map<string, string>, d: map<string, string>, forced: set<string>): map<string, string> {
    map k | k in config.Keys + d.Keys ::
      if k in d && (k in forced || k !in config || config[k] == "") then d[k] else config[k]
  }

  // The configuration keys whose default always wins: the command of a component on upgrade.
  function Forced(component: bool, isUpgrade: bool): set<string> {
    if component && isUpgrade then {"command"} else {}
  }

  // assignDefaultAddonVals and assignDefaultComponentVals.
  function Assign(a: Addon, d: Addon, component: bool, isUpgrade: bool): Addon {
    var enabled := if a.enabled.None? then d.enabled else a.enabled;
    if enabled != Some(true) then Addon(a.name, enabled, "", [], map[], [], "")
    else if a.data != "" then Addon(a.name, enabled, "", [], map[], [], a.data)
    else Addon(a.name, enabled, Or(a.mode, d.mode), Merged(a.containers, d.containers, isUpgrade),
               FilledConfig(a.config, d.config, Forced(component, isUpgrade)),
               if a.pools == [] then d.pools else a.pools, "")
  }

  // ---- Lists ----

  function MissingAddons(d: seq<Addon>, names: seq<string>): (r: seq<Addon>)
    ensures |r| <= |d|
    ensures forall a :: a in r <==> a in d && a.name !in names
  {
    if d == [] then [] else
      var last := d[|d| - 1];
      assert d == d[..|d| - 1] + [last];
      MissingAddons(d[..|d| - 1], names) + (if last.name in names then [] else [last])
  }

  function Listed(l: seq<Addon>, d: seq<Addon>): seq<Addon> {
    l + MissingAddons(d, Names(l))
  }

  function AssignedAt(l: seq<Addon>, d: seq<Addon>, component: bool, isUpgrade: bool, i: nat): Addon
    requires i < |l|
  {
    var k := IndexOf(Names(d), l[i].name);
    if k >= 0 && IndexOf(Names(l), l[i].name) == i then Assign(l[i], d[k], component, isUpgrade) else l[i]
  }

  function Assigned(l: seq<Addon>, d: seq<Addon>, component: bool, isUpgrade: bool): (r: seq<Addon>)
    ensures |r| == |l| && forall i :: 0 <= i < |l| ==> r[i] == AssignedAt(l, d, component, isUpgrade, i)
  {
    seq(|l|, i requires 0 <= i < |l| => AssignedAt(l, d, component, isUpgrade, i))
  }

  // One default filled in.
  function AssignedOne(l: seq<Addon>, d: Addon, component: bool, isUpgrade: bool): seq<Addon> {
    var i := IndexOf(Names(l), d.name);
    if i < 0 then l else l[i := Assign(l[i], d, component, isUpgrade)]
  }

  // The whole reconciliation of a list with the defaults.
  function Reconciled(l: seq<Addon>, d: seq<Addon>, component: bool, isUpgrade: bool): seq<Addon> {
    Assigned(Listed(l, d), d, component, isUpgrade)
  }

  // ---- Filling in twice ----

  lemma NamesOfMerged(cs: seq<Container>, ds: seq<Container>, isUpgrade: bool)
    ensures ContainerNames(Merged(cs, ds, isUpgrade))
         == ContainerNames(cs) + ContainerNames(MissingContainers(ds, ContainerNames(cs)))
  {
    hide IndexOf, Fill, MissingContainers, ContainerNames;
    var missing := MissingContainers(ds, ContainerNames(cs));
    var r := Merged(cs, ds, isUpgrade);
    assert |r| == |cs| + |missing|;
    forall i | 0 <= i < |r|
      ensures ContainerNames(r)[i] == (ContainerNames(cs) + ContainerNames(missing))[i]
    {
      FilledName(cs, ds, isUpgrade, i);
    }
  }

  lemma FilledName(cs: seq<Container>, ds: seq<Container>, isUpgrade: bool, i: nat)
    ensures i < |cs| ==> Filled(cs, ds, isUpgrade, i).name == cs[i].name
  {
  }

  lemma MissingContainerNames(ds: seq<Container>, names: seq<string>, name: string)
    ensures name in ContainerNames(MissingContainers(ds, names)) <==> name in ContainerNames(ds) && name !in names
  {
    hide ContainerNames;
    var missing := MissingContainers(ds, names);
    if name in ContainerNames(missing) {
      var i :| 0 <= i < |missing| && ContainerNames(missing)[i] == name;
      assert missing[i] in missing;
      var j :| 0 <= j < |ds| && ds[j] == missing[i];
      assert ContainerNames(ds)[j] == name;
    }
    if name in ContainerNames(ds) && name !in names {
      var i :| 0 <= i < |ds| && ContainerNames(ds)[i] == name;
      assert ds[i] in missing;
      var j :| 0 <= j < |missing| && missing[j] == ds[i];
      assert ContainerNames(missing)[j] == name;
    }
  }

  lemma MergedNames(cs: seq<Container>, ds: seq<Container>, isUpgrade: bool, name: string)
    ensures var r := Merged(cs, ds, isUpgrade);
            && ContainerNames(r)[..|cs|] == ContainerNames(cs)
            && (name in ContainerNames(r) <==> name in ContainerNames(cs) || name in ContainerNames(ds))
  {
    hide Merged, MissingContainers, ContainerNames;
    NamesOfMerged(cs, ds, isUpgrade);
    MissingContainerNames(ds, ContainerNames(cs), name);
  }

  lemma {:induction false} NothingMissing(ds: seq<Container>, names: seq<string>)
    requires forall i :: 0 <= i < |ds| ==> ds[i].name in names
    ensures MissingContainers(ds, names) == []
  {
    if ds != [] {
      NothingMissing(ds[..|ds| - 1], names);
    }
  }

  lemma MergeTwice(cs: seq<Container>, ds: seq<Container>, isUpgrade: bool)
    requires Distinct(ContainerNames(ds))
    ensures Merged(Merged(cs, ds, isUpgrade), ds, isUpgrade) == Merged(cs, ds, isUpgrade)
  {
    var r := Merged(cs, ds, isUpgrade);
    forall i | 0 <= i < |ds|
      ensures ds[i].name in ContainerNames(r)
    {
      assert ContainerNames(ds)[i] == ds[i].name;
      MergedNames(cs, ds, isUpgrade, ds[i].name);
    }
    NothingMissing(ds, ContainerNames(r));
    forall i | 0 <= i < |r|
      ensures Filled(r, ds, isUpgrade, i) == r[i]
    {
      FilledAgain(cs, ds, isUpgrade, i);
    }
    assert Merged(r, ds, isUpgrade) == r;
  }

  lemma FilledAgain(cs: seq<Container>, ds: seq<Container>, isUpgrade: bool, i: nat)
    requires Distinct(ContainerNames(ds)) && i < |Merged(cs, ds, isUpgrade)|
    ensures Filled(Merged(cs, ds, isUpgrade), ds, isUpgrade, i) == Merged(cs, ds, isUpgrade)[i]
  {
    hide Merged, IndexOf, MissingContainers;
    var r := Merged(cs, ds, isUpgrade);
    MergedTail(cs, ds, isUpgrade);
    var k := IndexOf(ContainerNames(ds), r[i].name);
    if k >= 0 && IndexOf(ContainerNames(r), r[i].name) == i {
      if i < |cs| {
        MergedNames(cs, ds, isUpgrade, cs[i].name);
        assert ContainerNames(r)[..|cs|] == ContainerNames(cs);
        assert forall j :: 0 <= j < i ==> ContainerNames(cs)[j] == ContainerNames(r)[j];
        assert IndexOf(ContainerNames(cs), cs[i].name) == i;
      } else {
        var missing := MissingContainers(ds, ContainerNames(cs));
        assert r[i] == r[|cs|..][i - |cs|] == missing[i - |cs|];
        var j :| 0 <= j < |ds| && ds[j] == r[i];
        assert ContainerNames(ds)[j] == r[i].name;
        assert j == k;
      }
    }
  }

  lemma AssignTwice(a: Addon, d: Addon, component: bool, isUpgrade: bool)
    requires Distinct(ContainerNames(d.containers))
    ensures Assign(Assign(a, d, component, isUpgrade), d, component, isUpgrade) == Assign(a, d, component, isUpgrade)
  {
    hide Merged, FilledConfig;
    MergeTwice(a.containers, d.containers, isUpgrade);
    FillConfigTwice(a.config, d.config, Forced(component, isUpgrade));
  }

  lemma FillConfigTwice(config: map<string, string>, d: map<string, string>, forced: set<string>)
    ensures FilledConfig(FilledConfig(config, d, forced), d, forced) == FilledConfig(config, d, forced)
  {
  }

  // Some of the defaults, filled in from a list to themselves, change nothing.
  lemma MergeSelf(ds: seq<Container>, i: nat, isUpgrade: bool)
    requires Distinct(ContainerNames(ds)) && i <= |ds|
    ensures Merged(ds, ds[..i], isUpgrade) == ds
  {
    var part := ds[..i];
    forall j | 0 <= j < i
      ensures part[j].name in ContainerNames(ds)
    {
      assert ContainerNames(ds)[j] == part[j].name;
    }
    NothingMissing(part, ContainerNames(ds));
    forall j | 0 <= j < |ds|
      ensures Filled(ds, part, isUpgrade, j) == ds[j]
    {
      var k := IndexOf(ContainerNames(part), ds[j].name);
      if k >= 0 {
        assert ContainerNames(ds)[k] == ContainerNames(part)[k] && ContainerNames(ds)[j] == ds[j].name;
      }
    }
  }

  // One turn of the loop over the default containers.
  lemma MergeStep(cs: seq<Container>, ds: seq<Container>, isUpgrade: bool, i: nat)
    requires Distinct(ContainerNames(ds)) && i < |ds|
    ensures var m := Merged(cs, ds[..i], isUpgrade);
            var c := IndexOf(ContainerNames(m), ds[i].name);
            Merged(cs, ds[..i + 1], isUpgrade) == if c < 0 then m + [ds[i]] else m[c := Fill(m[c], ds[i], isUpgrade)]
  {
    hide Merged, IndexOf;
    var part := ds[..i];
    var m := Merged(cs, part, isUpgrade);
    assert ds[..i + 1] == part + [ds[i]];
    assert ds[i].name !in ContainerNames(part) by {
      assert forall j :: 0 <= j < i ==> ContainerNames(ds)[j] == ContainerNames(part)[j];
      assert ContainerNames(ds)[i] == ds[i].name;
    }
    MergedNames(cs, part, isUpgrade, ds[i].name);
    SameIndex(ContainerNames(m), ContainerNames(cs), ds[i].name,
              IndexOf(ContainerNames(m), ds[i].name), IndexOf(ContainerNames(cs), ds[i].name));
    MergeOneMore(cs, part, ds[i], isUpgrade);
  }

  lemma MergeOneMore(cs: seq<Container>, part: seq<Container>, d: Container, isUpgrade: bool)
    requires d.name !in ContainerNames(part)
    ensures var m := Merged(cs, part, isUpgrade);
            var u := IndexOf(ContainerNames(cs), d.name);
            Merged(cs, part + [d], isUpgrade) == if u < 0 then m + [d] else m[u := Fill(m[u], d, isUpgrade)]
  {
    hide IndexOf, Filled, Merged, MissingContainers;
    var m := Merged(cs, part, isUpgrade);
    var more := Merged(cs, part + [d], isUpgrade);
    var names := ContainerNames(cs);
    var u := IndexOf(names, d.name);
    MergedTail(cs, part, isUpgrade);
    MergedTail(cs, part + [d], isUpgrade);
    MissingOneMore(part, d, names);
    forall j | 0 <= j < |cs|
      ensures more[j] == if j == u then Fill(m[u], d, isUpgrade) else m[j]
    {
      FilledMore(cs, part, d, isUpgrade, j);
    }
    assert more == more[..|cs|] + more[|cs|..] && m == m[..|cs|] + m[|cs|..];
    if u < 0 {
      assert more[..|cs|] == m[..|cs|];
    } else {
      assert more[..|cs|] == m[..|cs|][u := Fill(m[u], d, isUpgrade)];
    }
  }

  lemma MergedTail(cs: seq<Container>, ds: seq<Container>, isUpgrade: bool)
    ensures Merged(cs, ds, isUpgrade)[|cs|..] == MissingContainers(ds, ContainerNames(cs))
  {
  }

  lemma MissingOneMore(ds: seq<Container>, d: Container, names: seq<string>)
    ensures MissingContainers(ds + [d], names) == MissingContainers(ds, names) + if d.name in names then [] else [d]
  {
    assert (ds + [d])[..|ds|] == ds;
  }

  lemma SameIndex(longer: seq<string>, names: seq<string>, name: string, c: int, u: int)
    requires |names| <= |longer| && longer[..|names|] == names && (name in longer ==> name in names)
    requires c == IndexOf(longer, name) && u == IndexOf(names, name)
    ensures c == u
  {
    assert forall j :: 0 <= j < |names| ==> longer[j] == names[j];
  }

  lemma FilledMore(cs: seq<Container>, part: seq<Container>, d: Container, isUpgrade: bool, j: nat)
    requires j < |cs| && d.name !in ContainerNames(part)
    ensures Filled(cs, part + [d], isUpgrade, j)
         == if IndexOf(ContainerNames(cs), d.name) == j then Fill(cs[j], d, isUpgrade) else Filled(cs, part, isUpgrade, j)
    ensures IndexOf(ContainerNames(cs), d.name) == j ==> Filled(cs, part, isUpgrade, j) == cs[j]
  {
    assert ContainerNames(part + [d]) == ContainerNames(part) + [d.name];
  }

  // ---- Lists ----

  lemma {:induction false} NoneMissing(d: seq<Addon>, names: seq<string>)
    requires forall i :: 0 <= i < |d| ==> d[i].name in names
    ensures MissingAddons(d, names) == []
  {
    if d != [] {
      NoneMissing(d[..|d| - 1], names);
    }
  }

  lemma ListedNames(l: seq<Addon>, d: seq<Addon>)
    ensures Names(Listed(l, d)) == Names(l) + Names(MissingAddons(d, Names(l)))
  {
  }

  lemma AssignedNames(l: seq<Addon>, d: seq<Addon>, component: bool, isUpgrade: bool)
    ensures Names(Assigned(l, d, component, isUpgrade)) == Names(l)
  {
  }

  lemma MissingNames(l: seq<Addon>, d: seq<Addon>, name: string)
    requires name !in Names(l)
    ensures name in Names(MissingAddons(d, Names(l))) <==> name in Names(d)
  {
    var missing := MissingAddons(d, Names(l));
    if name in Names(missing) {
      var i :| 0 <= i < |missing| && missing[i].name == name;
      assert missing[i] in d;
    }
    if name in Names(d) {
      var i :| 0 <= i < |d| && d[i].name == name;
      assert d[i] in missing;
    }
  }

  lemma MissingNotListed(l: seq<Addon>, d: seq<Addon>, name: string)
    requires name in Names(MissingAddons(d, Names(l)))
    ensures name in Names(d)
  {
    var missing := MissingAddons(d, Names(l));
    var i :| 0 <= i < |missing| && missing[i].name == name;
    assert missing[i] in d;
  }

  // The user's entries come first, in their order; every default name is listed.
  lemma NamesKept(l: seq<Addon>, d: seq<Addon>, component: bool, isUpgrade: bool)
    ensures Names(Reconciled(l, d, component, isUpgrade)) == Names(l) + Names(MissingAddons(d, Names(l)))
    ensures forall name :: name in Names(Reconciled(l, d, component, isUpgrade)) <==> name in Names(l) || name in Names(d)
  {
    hide Assigned, Listed, Names, MissingAddons;
    ListedNames(l, d);
    AssignedNames(Listed(l, d), d, component, isUpgrade);
    forall name
      ensures name in Names(Reconciled(l, d, component, isUpgrade)) <==> name in Names(l) || name in Names(d)
    {
      if name !in Names(l) {
        MissingNames(l, d, name);
      } else if name in Names(MissingAddons(d, Names(l))) {
        MissingNotListed(l, d, name);
      }
    }
  }

  ghost predicate WellFormed(d: seq<Addon>) {
    Distinct(Names(d)) && forall i :: 0 <= i < |d| ==> Distinct(ContainerNames(d[i].containers))
  }

  // Reconciling is a fixpoint.
  lemma ReconcileTwice(l: seq<Addon>, d: seq<Addon>, component: bool, isUpgrade: bool)
    requires WellFormed(d)
    ensures Reconciled(Reconciled(l, d, component, isUpgrade), d, component, isUpgrade)
         == Reconciled(l, d, component, isUpgrade)
  {
    hide Assigned, Names;
    var r := Reconciled(l, d, component, isUpgrade);
    NamesKept(l, d, component, isUpgrade);
    forall i | 0 <= i < |d|
      ensures d[i].name in Names(r)
    {
      assert Names(d)[i] in Names(d);
    }
    NoneMissing(d, Names(r));
    assert Listed(r, d) == r;
    AssignedTwice(Listed(l, d), d, component, isUpgrade);
  }

  lemma AssignedTwice(l: seq<Addon>, d: seq<Addon>, component: bool, isUpgrade: bool)
    requires WellFormed(d)
    ensures Assigned(Assigned(l, d, component, isUpgrade), d, component, isUpgrade) == Assigned(l, d, component, isUpgrade)
  {
    hide Assign;
    var r := Assigned(l, d, component, isUpgrade);
    forall i | 0 <= i < |r|
      ensures AssignedAt(r, d, component, isUpgrade, i) == r[i]
    {
      AssignedAgain(l, d, component, isUpgrade, i);
    }
  }

  lemma AssignedAgain(l: seq<Addon>, d: seq<Addon>, component: bool, isUpgrade: bool, i: nat)
    requires WellFormed(d) && i < |l|
    ensures AssignedAt(Assigned(l, d, component, isUpgrade), d, component, isUpgrade, i) == Assigned(l, d, component, isUpgrade)[i]
  {
    hide Merged, FilledConfig;
    AssignedNames(l, d, component, isUpgrade);
    var k := IndexOf(Names(d), l[i].name);
    if k >= 0 {
      AssignTwice(l[i], d[k], component, isUpgrade);
    }
  }

  // ---- What the user wrote ----

  predicate Keeps(user: string, final: string) {
    user != "" ==> final == user
  }

  predicate KeepsContainer(user: Container, final: Container, isUpgrade: bool) {
    && final.name == user.name && (!isUpgrade ==> Keeps(user.image, final.image))
    && Keeps(user.cpuRequests, final.cpuRequests) && Keeps(user.memoryRequests, final.memoryRequests)
    && Keeps(user.cpuLimits, final.cpuLimits) && Keeps(user.memoryLimits, final.memoryLimits)
  }

  predicate Takes(user: string, default: string, final: string) {
    user == "" ==> final == default
  }

  predicate TakesContainer(user: Container, d: Container, final: Container, isUpgrade: bool) {
    && Takes(user.image, d.image, final.image) && (isUpgrade ==> final.image == d.image)
    && Takes(user.cpuRequests, d.cpuRequests, final.cpuRequests)
    && Takes(user.memoryRequests, d.memoryRequests, final.memoryRequests)
    && Takes(user.cpuLimits, d.cpuLimits, final.cpuLimits)
    && Takes(user.memoryLimits, d.memoryLimits, final.memoryLimits)
  }

  // What the user left empty comes from the default of the same name; every container the
  // user did not list is the default's, and so is every missing or empty configuration entry.
  lemma DefaultsTaken(a: Addon, d: Addon, component: bool, isUpgrade: bool)
    requires Distinct(ContainerNames(d.containers)) && a.data == ""
    requires Assign(a, d, component, isUpgrade).enabled == Some(true)
    ensures var r := Assign(a, d, component, isUpgrade);
            && Takes(a.mode, d.mode, r.mode) && (a.pools == [] ==> r.pools == d.pools)
            && (forall k :: k in d.config ==>
                  k in r.config && (k !in a.config || a.config[k] == "" ==> r.config[k] == d.config[k]))
            && (component && isUpgrade && "command" in d.config ==> r.config["command"] == d.config["command"])
            && (forall n :: 0 <= n < |d.containers| && d.containers[n].name !in ContainerNames(a.containers) ==>
                  d.containers[n] in r.containers)
            && (forall j, n :: 0 <= j < |a.containers| && 0 <= n < |d.containers| && Meets(a.containers, j, d.containers[n]) ==>
                  TakesContainer(a.containers[j], d.containers[n], r.containers[j], isUpgrade))
  {
    hide Merged, FilledConfig, IndexOf, MissingContainers;
    var r := Assign(a, d, component, isUpgrade);
    ConfigTaken(a.config, d.config, Forced(component, isUpgrade));
    ForcedTaken(a.config, d.config, Forced(component, isUpgrade));
    MergedTail(a.containers, d.containers, isUpgrade);
    forall n | 0 <= n < |d.containers| && d.containers[n].name !in ContainerNames(a.containers)
      ensures d.containers[n] in r.containers
    {
      assert d.containers[n] in r.containers[|a.containers|..];
    }
    forall j, n | 0 <= j < |a.containers| && 0 <= n < |d.containers| && Meets(a.containers, j, d.containers[n])
      ensures TakesContainer(a.containers[j], d.containers[n], r.containers[j], isUpgrade)
    {
      ContainerTaken(a.containers, d.containers, isUpgrade, j, n);
    }
  }

  // The container at j is the first one with the name of the default.
  predicate Meets(cs: seq<Container>, j: nat, d: Container)
    requires j < |cs|
  {
    cs[j].name == d.name && forall i :: 0 <= i < j ==> cs[i].name != cs[j].name
  }

  lemma ContainerTaken(cs: seq<Container>, ds: seq<Container>, isUpgrade: bool, j: nat, n: nat)
    requires Distinct(ContainerNames(ds)) && j < |cs| && n < |ds| && Meets(cs, j, ds[n])
    ensures TakesContainer(cs[j], ds[n], Merged(cs, ds, isUpgrade)[j], isUpgrade)
  {
    assert ContainerNames(cs)[j] == cs[j].name && ContainerNames(ds)[n] == cs[j].name;
    assert IndexOf(ContainerNames(cs), cs[j].name) == j;
    assert IndexOf(ContainerNames(ds), cs[j].name) == n;
  }

  lemma ConfigTaken(config: map<string, string>, d: map<string, string>, forced: set<string>)
    ensures forall k :: k in d ==>
              k in FilledConfig(config, d, forced)
              && (k !in config || config[k] == "" ==> FilledConfig(config, d, forced)[k] == d[k])
  {
  }

  lemma ForcedTaken(config: map<string, string>, d: map<string, string>, forced: set<string>)
    ensures forall k :: k in d && k in forced ==> k in FilledConfig(config, d, forced) && FilledConfig(config, d, forced)[k] == d[k]
  {
  }

  // ---- What is left out, appended and left alone ----

  // An entry that is off, or has raw data, keeps nothing else.
  lemma OffIsBlank(a: Addon, d: Addon, component: bool, isUpgrade: bool)
    ensures var r := Assign(a, d, component, isUpgrade);
            && r.name == a.name && r.enabled == (if a.enabled.None? then d.enabled else a.enabled)
            && (r.enabled != Some(true) ==> r == Addon(a.name, r.enabled, "", [], map[], [], ""))
            && (r.enabled == Some(true) && a.data != "" ==> r == Addon(a.name, r.enabled, "", [], map[], [], a.data))
  {
    hide Merged, FilledConfig;
  }

  // Of several containers with one name only the first is filled in.
  lemma SecondContainerKept(cs: seq<Container>, ds: seq<Container>, isUpgrade: bool, i: nat, j: nat)
    requires i < j < |cs| && cs[i].name == cs[j].name
    ensures Merged(cs, ds, isUpgrade)[j] == cs[j]
  {
    assert ContainerNames(cs)[i] == ContainerNames(cs)[j];
  }

  // The elements of part stand at ascending positions of whole.
  ghost predicate Picks<T>(whole: seq<T>, part: seq<T>, at: seq<nat>) {
    && |part| == |at|
    && (forall m, n :: 0 <= m < n < |at| ==> at[m] < at[n])
    && (forall n :: 0 <= n < |at| ==> at[n] < |whole| && part[n] == whole[at[n]])
  }

  ghost predicate Among(at: seq<nat>, k: nat) {
    exists n :: 0 <= n < |at| && at[n] == k
  }

  lemma PickNothing<T>(whole: seq<T>)
    ensures Picks(whole, [], [])
  {
  }

  lemma PickMore<T>(whole: seq<T>, part: seq<T>, at: seq<nat>, x: T)
    requires Picks(whole, part, at)
    ensures Picks(whole + [x], part, at) && !Among(at, |whole|)
    ensures Picks(whole + [x], part + [x], at + [|whole|])
  {
  }

  lemma AmongMore(at: seq<nat>, last: nat, k: nat)
    ensures Among(at + [last], k) <==> Among(at, k) || k == last
  {
    assert (at + [last])[|at|] == last;
    if Among(at, k) {
      var n :| 0 <= n < |at| && at[n] == k;
      assert (at + [last])[n] == k;
    }
  }

  // The default containers that the user does not have follow in their order.
  lemma {:induction false} AppendedInOrder(ds: seq<Container>, names: seq<string>) returns (at: seq<nat>)
    ensures Picks(ds, MissingContainers(ds, names), at)
    ensures forall k :: 0 <= k < |ds| ==> (Among(at, k) <==> ds[k].name !in names)
  {
    hide Picks, Among;
    if ds == [] {
      at := [];
      PickNothing(ds);
    } else {
      var before, last := ds[..|ds| - 1], ds[|ds| - 1];
      at := AppendedInOrder(before, names);
      at := AppendedInOrderStep(before, last, names, at);
      assert ds == before + [last];
    }
  }

  lemma AppendedInOrderStep(ds: seq<Container>, last: Container, names: seq<string>, picked: seq<nat>) returns (at: seq<nat>)
    requires Picks(ds, MissingContainers(ds, names), picked)
    requires forall k :: 0 <= k < |ds| ==> (Among(picked, k) <==> ds[k].name !in names)
    ensures Picks(ds + [last], MissingContainers(ds + [last], names), at)
    ensures forall k :: 0 <= k < |ds + [last]| ==> (Among(at, k) <==> (ds + [last])[k].name !in names)
  {
    hide Picks, Among;
    var part := MissingContainers(ds, names);
    assert MissingContainers(ds + [last], names) == part + (if last.name in names then [] else [last]) by {
      assert (ds + [last])[..|ds|] == ds;
    }
    hide MissingContainers;
    PickMore(ds, part, picked, last);
    assert part + [] == part;
    at := if last.name in names then picked else picked + [|ds|];
    forall k | 0 <= k < |ds + [last]| ensures Among(at, k) <==> (ds + [last])[k].name !in names {
      AmongMore(picked, |ds|, k);
    }
  }

  // So do the default addons.
  lemma {:induction false} AddonsInOrder(d: seq<Addon>, names: seq<string>) returns (at: seq<nat>)
    ensures Picks(d, MissingAddons(d, names), at)
    ensures forall k :: 0 <= k < |d| ==> (Among(at, k) <==> d[k].name !in names)
  {
    hide Picks, Among;
    if d == [] {
      at := [];
      PickNothing(d);
    } else {
      var before, last := d[..|d| - 1], d[|d| - 1];
      at := AddonsInOrder(before, names);
      at := AddonsInOrderStep(before, last, names, at);
      assert d == before + [last];
    }
  }

  lemma AddonsInOrderStep(d: seq<Addon>, last: Addon, names: seq<string>, picked: seq<nat>) returns (at: seq<nat>)
    requires Picks(d, MissingAddons(d, names), picked)
    requires forall k :: 0 <= k < |d| ==> (Among(picked, k) <==> d[k].name !in names)
    ensures Picks(d + [last], MissingAddons(d + [last], names), at)
    ensures forall k :: 0 <= k < |d + [last]| ==> (Among(at, k) <==> (d + [last])[k].name !in names)
  {
    hide Picks, Among;
    var part := MissingAddons(d, names);
    assert MissingAddons(d + [last], names) == part + (if last.name in names then [] else [last]) by {
      assert (d + [last])[..|d|] == d;
    }
    hide MissingAddons;
    PickMore(d, part, picked, last);
    assert part + [] == part;
    at := if last.name in names then picked else picked + [|d|];
    forall k | 0 <= k < |d + [last]| ensures Among(at, k) <==> (d + [last])[k].name !in names {
      AmongMore(picked, |d|, k);
    }
  }

  // ---- Cluster DNS ----

  const KUBE_DNS := "kube-dns"
  const CORE_DNS := "coredns"

  // IsAddonEnabled.
  function Enabled(l: seq<Addon>, name: string): bool {
    var i := IndexOf(Names(l), name);
    i >= 0 && l[i].enabled == Some(true)
  }

  // kube-dns is off by default; coredns is on unless the user's kube-dns is enabled.
  ghost predicate DnsDefaults(l: seq<Addon>, d: seq<Addon>) {
    && (forall i :: 0 <= i < |d| && d[i].name == KUBE_DNS ==> d[i].enabled == Some(false))
    && (forall i :: 0 <= i < |d| && d[i].name == CORE_DNS ==> d[i].enabled == Some(!Enabled(l, KUBE_DNS)))
  }

  // What an entry ends up as: the user's word if there is one, otherwise the default.
  predicate Decided(l: seq<Addon>, d: seq<Addon>, name: string) {
    var u := IndexOf(Names(l), name);
    var k := IndexOf(Names(d), name);
    if u >= 0 && l[u].enabled.Some? then l[u].enabled.value else k >= 0 && d[k].enabled == Some(true)
  }

  // The first entry of a default name is the user's, if there is one, or the default.
  lemma FirstListed(l: seq<Addon>, d: seq<Addon>, name: string)
    requires Distinct(Names(d)) && name in Names(d)
    ensures IndexOf(Names(Listed(l, d)), name) >= 0
    ensures Listed(l, d)[IndexOf(Names(Listed(l, d)), name)]
         == if IndexOf(Names(l), name) >= 0 then l[IndexOf(Names(l), name)] else d[IndexOf(Names(d), name)]
  {
    hide Names, IndexOf, MissingAddons;
    var listed := Listed(l, d);
    ListedNames(l, d);
    var i := IndexOf(Names(listed), name);
    var u := IndexOf(Names(l), name);
    if u >= 0 {
      assert Names(listed)[u] == Names(l)[u];
      assert i == u;
    } else {
      MissingNames(l, d, name);
      assert name in Names(listed);
      assert listed[i] in MissingAddons(d, Names(l));
      var j :| 0 <= j < |d| && d[j] == listed[i];
      assert Names(d)[j] == name;
      assert j == IndexOf(Names(d), name);
    }
  }

  // ---- Replacements on upgrade ----

  const DISK_CSI := "azuredisk-csi-driver"
  const FILE_CSI := "azurefile-csi-driver"
  const NODE_MANAGER := "cloud-node-manager"
  const CLOUD_MANAGER := "cloud-controller-manager"
  const NETWORK_MONITOR := "azure-cni-networkmonitor"

  // Addons or components, and what the upgrade steps depend on: whether the cloud node
  // manager and the CSI drivers should be enabled, whether an Azure Stack cluster uses the
  // cloud controller manager, and the agent pools.
  datatype Mode = Mode(component: bool, isUpgrade: bool, azureAddons: bool, stackWithCcm: bool, profiles: seq<Profile>) {
    // Replaced by their defaults unless they are enabled.
    function Ensured(): set<string> {
      if !component && isUpgrade && azureAddons then {DISK_CSI, FILE_CSI, NODE_MANAGER} else {}
    }

    // Replaced by their defaults in any case.
    function Replacing(): set<string> {
      if isUpgrade && stackWithCcm then {if component then CLOUD_MANAGER else NODE_MANAGER} else {}
    }
  }

  predicate ReplacedAt(l: seq<Addon>, d: seq<Addon>, ensured: set<string>, forced: set<string>, i: nat)
    requires i < |l|
  {
    && IndexOf(Names(l), l[i].name) == i && IndexOf(Names(d), l[i].name) >= 0
    && (l[i].name in forced || (l[i].name in ensured && l[i].enabled != Some(true)))
  }

  function Replaced(l: seq<Addon>, d: seq<Addon>, ensured: set<string>, forced: set<string>): (r: seq<Addon>)
    ensures |r| == |l|
  {
    seq(|l|, i requires 0 <= i < |l| =>
      if ReplacedAt(l, d, ensured, forced, i) then d[IndexOf(Names(d), l[i].name)] else l[i])
  }

  // The user's names whose first entry is not replaced.
  function Own(l: seq<Addon>, d: seq<Addon>, ensured: set<string>, forced: set<string>): set<string> {
    set n | n in Names(l) && !(n in Names(d) && (n in forced || (n in ensured && !Enabled(l, n))))
  }

  // The deprecated network monitor is turned off on upgrade.
  function MonitorOff(l: seq<Addon>, isUpgrade: bool): (r: seq<Addon>)
    ensures |r| == |l|
  {
    var i := IndexOf(Names(l), NETWORK_MONITOR);
    if isUpgrade && i >= 0 then l[i := l[i].(enabled := Some(false))] else l
  }

  lemma ReplacedNames(l: seq<Addon>, d: seq<Addon>, ensured: set<string>, forced: set<string>)
    ensures Names(Replaced(l, d, ensured, forced)) == Names(l)
  {
  }

  lemma MonitorOffNames(l: seq<Addon>, isUpgrade: bool)
    ensures Names(MonitorOff(l, isUpgrade)) == Names(l)
  {
  }

  lemma ReplacedNone(l: seq<Addon>, d: seq<Addon>)
    ensures Replaced(l, d, {}, {}) == l
    ensures forall n :: n in Own(l, d, {}, {}) <==> n in Names(l)
  {
  }

  function ReplacedOne(l: seq<Addon>, d: seq<Addon>, name: string, always: bool): seq<Addon> {
    var i, k := IndexOf(Names(l), name), IndexOf(Names(d), name);
    if i < 0 || k < 0 || (!always && l[i].enabled == Some(true)) then l else l[i := d[k]]
  }

  lemma EnsureStep(l: seq<Addon>, d: seq<Addon>, ensured: set<string>, name: string)
    requires name !in ensured
    ensures Replaced(l, d, ensured + {name}, {}) == ReplacedOne(Replaced(l, d, ensured, {}), d, name, false)
  {
    hide Names, IndexOf;
    ReplacedNames(l, d, ensured, {});
    var r, more := Replaced(l, d, ensured, {}), Replaced(l, d, ensured + {name}, {});
    forall i | 0 <= i < |l|
      ensures more[i] == ReplacedOne(r, d, name, false)[i]
    {
    }
  }

  lemma ForceStep(l: seq<Addon>, d: seq<Addon>, ensured: set<string>, name: string)
    ensures Replaced(l, d, ensured, {name}) == ReplacedOne(Replaced(l, d, ensured, {}), d, name, true)
  {
    hide Names, IndexOf;
    ReplacedNames(l, d, ensured, {});
    var r, more := Replaced(l, d, ensured, {}), Replaced(l, d, ensured, {name});
    forall i | 0 <= i < |l|
      ensures more[i] == ReplacedOne(r, d, name, true)[i]
    {
    }
  }

  // The names whose first entry is the user's own, after a step that may replace an entry.
  function OwnAfter(own: set<string>, l: seq<Addon>, d: seq<Addon>, name: string, always: bool): set<string> {
    var i, k := IndexOf(Names(l), name), IndexOf(Names(d), name);
    if i < 0 || k < 0 || (!always && l[i].enabled == Some(true)) then own else own - {name}
  }

  lemma OwnEnsured(l: seq<Addon>, d: seq<Addon>, ensured: set<string>, name: string)
    requires Distinct(Names(d)) && name !in ensured
    ensures Own(l, d, ensured + {name}, {})
         == OwnAfter(Own(l, d, ensured, {}), Replaced(Listed(l, d), d, ensured, {}), d, name, false)
  {
    hide Names, IndexOf, Listed;
    ReplacedNames(Listed(l, d), d, ensured, {});
    if name in Names(d) {
      FirstListed(l, d, name);
    }
  }

  lemma OwnForced(l: seq<Addon>, d: seq<Addon>, ensured: set<string>, name: string)
    requires Distinct(Names(d))
    ensures Own(l, d, ensured, {name})
         == OwnAfter(Own(l, d, ensured, {}), Replaced(Listed(l, d), d, ensured, {}), d, name, true)
  {
    hide Names, IndexOf, Listed;
    ReplacedNames(Listed(l, d), d, ensured, {});
    if name in Names(d) {
      FirstListed(l, d, name);
    }
  }

  // ---- The pools of the cluster autoscaler ----

  const AUTOSCALER := "cluster-autoscaler"
  const MIN_NODES := "min-nodes"
  const MAX_NODES := "max-nodes"

  // An agent pool and its printed number of nodes.
  datatype Profile = Profile(name: string, count: string)

  // What Go's indexing of the map gives.
  function Limit(config: map<string, string>, key: string): string {
    if key in config then config[key] else ""
  }

  function PoolOf(p: Profile, config: map<string, string>): Pool {
    Pool(p.name, map[MIN_NODES := Or(Limit(config, MIN_NODES), p.count), MAX_NODES := Or(Limit(config, MAX_NODES), p.count)])
  }

  // One pool for each profile; the limits of a configuration go to the first one.
  function PoolsOf(ps: seq<Profile>, config: map<string, string>): (r: seq<Pool>)
    ensures |r| == |ps|
  {
    seq(|ps|, n requires 0 <= n < |ps| => PoolOf(ps[n], if n == 0 then config else map[]))
  }

  function Without(a: Addon, key: string): Addon {
    if Limit(a.config, key) == "" then a else a.(config := a.config - {key})
  }

  // The autoscaler is to be given pools.
  predicate Converts(l: seq<Addon>, ps: seq<Profile>) {
    var a := IndexOf(Names(l), AUTOSCALER);
    a >= 0 && l[a].enabled == Some(true) && l[a].pools == [] && ps != []
  }

  // On upgrade, an enabled autoscaler without pools gets one for each profile; the limits of
  // the first one are moved from the configuration of the first entry of the list.
  function Converted(l: seq<Addon>, ps: seq<Profile>): (r: seq<Addon>)
    ensures |r| == |l|
  {
    if Converts(l, ps) then
      var moved := l[0 := Without(Without(l[0], MIN_NODES), MAX_NODES)];
      var a := IndexOf(Names(l), AUTOSCALER);
      moved[a := moved[a].(pools := PoolsOf(ps, l[0].config))]
    else l
  }

  // The limits of the entry move to a pool.
  function WithoutLimits(a: Addon): Addon {
    Without(Without(a, MIN_NODES), MAX_NODES)
  }

  lemma ConvertedAt(l: seq<Addon>, ps: seq<Profile>, i: nat)
    requires i < |l|
    ensures Converted(l, ps)[i]
         == if !Converts(l, ps) then l[i]
            else
              var a := if i == 0 then WithoutLimits(l[i]) else l[i];
              if i == IndexOf(Names(l), AUTOSCALER) then a.(pools := PoolsOf(ps, l[0].config)) else a
  {
    hide Names, IndexOf, Without;
  }

  // One pool for each profile, in order; only the first one has limits of its own.
  lemma PoolsMean(ps: seq<Profile>, config: map<string, string>, n: nat)
    requires n < |ps|
    ensures |PoolsOf(ps, config)| == |ps| && PoolsOf(ps, config)[n].name == ps[n].name
    ensures PoolsOf(ps, config)[n].config.Keys == {"min-nodes", "max-nodes"}
    ensures forall key :: key in {"min-nodes", "max-nodes"} ==>
              PoolsOf(ps, config)[n].config[key] == if n == 0 && Limit(config, key) != "" then config[key] else ps[n].count
  {
    DifferentLimits();
  }

  lemma ConvertedNames(l: seq<Addon>, ps: seq<Profile>)
    ensures Names(Converted(l, ps)) == Names(l)
  {
  }

  // The first pool gets the autoscaler's own limits exactly if those agree with the limits
  // of the first entry, where an empty limit stands for the number of nodes.
  lemma LimitsMoved(l: seq<Addon>, ps: seq<Profile>)
    requires Converts(l, ps)
    ensures var a := IndexOf(Names(l), AUTOSCALER);
            Converted(l, ps)[a].pools == PoolsOf(ps, l[a].config)
            <==> forall key :: key in {MIN_NODES, MAX_NODES} ==>
                   Or(Limit(l[0].config, key), ps[0].count) == Or(Limit(l[a].config, key), ps[0].count)
  {
    hide Names, IndexOf;
    var a := IndexOf(Names(l), AUTOSCALER);
    var got, own := PoolsOf(ps, l[0].config), PoolsOf(ps, l[a].config);
    assert Converted(l, ps)[a].pools == got;
    DifferentLimits();
    assert got == own <==> got[0] == own[0] by {
      assert forall n :: 0 < n < |ps| ==> got[n] == own[n];
    }
    SamePool(ps[0], l[0].config, l[a].config);
  }

  lemma DifferentLimits()
    ensures MIN_NODES != MAX_NODES
  {
    assert MIN_NODES[1] == 'i' && MAX_NODES[1] == 'a';
  }

  lemma SamePool(p: Profile, c: map<string, string>, e: map<string, string>)
    ensures PoolOf(p, c) == PoolOf(p, e)
       <==> forall key :: key in {MIN_NODES, MAX_NODES} ==> Or(Limit(c, key), p.count) == Or(Limit(e, key), p.count)
  {
    DifferentLimits();
    assert PoolOf(p, c) == PoolOf(p, e) ==>
      PoolOf(p, c).config[MIN_NODES] == PoolOf(p, e).config[MIN_NODES]
      && PoolOf(p, c).config[MAX_NODES] == PoolOf(p, e).config[MAX_NODES];
  }

  // An autoscaler that is not the first entry loses its limits.
  lemma LimitsLost()
    ensures var first := Addon(CORE_DNS, Some(true), "", [], map[], [], "");
            var scaler := Addon(AUTOSCALER, Some(true), "", [], map[MIN_NODES := "2", MAX_NODES := "5"], [], "");
            Converted([first, scaler], [Profile("pool", "3")])[1].pools
            == [Pool("pool", map[MIN_NODES := "3", MAX_NODES := "3"])]
  {
    var first := Addon(CORE_DNS, Some(true), "", [], map[], [], "");
    var scaler := Addon(AUTOSCALER, Some(true), "", [], map[MIN_NODES := "2", MAX_NODES := "5"], [], "");
    assert |CORE_DNS| == 7 && |AUTOSCALER| == 18;
    assert Names([first, scaler])[..1] == [CORE_DNS];
    assert IndexOf([CORE_DNS], AUTOSCALER) == -1;
    assert IndexOf(Names([first, scaler]), AUTOSCALER) == 1;
  }

  // ---- Custom images ----

  function ImageFor(images: map<string, string>, name: string): string {
    if name in images then images[name] else ""
  }

  // Containers[0].Image = image
  function WithImage(a: Addon, image: string): Addon {
    if a.containers == [] then a else a.(containers := a.containers[0 := a.containers[0].(image := image)])
  }

  predicate Customized(l: seq<Addon>, d: seq<Addon>, images: map<string, string>, i: nat)
    requires i < |l|
  {
    && IndexOf(Names(d), l[i].name) >= 0 && IndexOf(Names(l), l[i].name) == i
    && ImageFor(images, l[i].name) != ""
  }

  // The list after the custom images were written into it.
  function Imaged(l: seq<Addon>, d: seq<Addon>, images: map<string, string>): (r: seq<Addon>)
    ensures |r| == |l|
  {
    seq(|l|, i requires 0 <= i < |l| =>
      if Customized(l, d, images, i) then WithImage(l[i], ImageFor(images, l[i].name)) else l[i])
  }

  // Writing them crashes unless every entry concerned has a container.
  ghost predicate ImagesFit(l: seq<Addon>, d: seq<Addon>, images: map<string, string>) {
    forall i :: 0 <= i < |l| && Customized(l, d, images, i) ==> l[i].containers != []
  }

  // The defaults afterwards: those whose entry is not the user's own share its containers.
  function ImagedDefaults(d: seq<Addon>, own: set<string>, images: map<string, string>): (r: seq<Addon>)
    ensures |r| == |d|
  {
    seq(|d|, k requires 0 <= k < |d| =>
      if d[k].name !in own && ImageFor(images, d[k].name) != "" then WithImage(d[k], ImageFor(images, d[k].name)) else d[k])
  }

  // The list once addons were replaced and the autoscaler was given its pools, on upgrade.
  function Upgraded(l: seq<Addon>, d: seq<Addon>, mode: Mode): (r: seq<Addon>)
    ensures |r| == |Listed(l, d)|
  {
    var replaced := Replaced(Listed(l, d), d, mode.Ensured(), mode.Replacing());
    if mode.isUpgrade then Converted(replaced, mode.profiles) else replaced
  }

  // The list before the images are written: on upgrade, moreover, an addon that is no longer
  // supported is turned off.
  function Prepared(l: seq<Addon>, d: seq<Addon>, mode: Mode): (r: seq<Addon>)
    ensures |r| == |Listed(l, d)|
  {
    if mode.component then Listed(l, d)
    else MonitorOff(Upgraded(l, d, mode), mode.isUpgrade)
  }

  // The names whose first entry is still the user's when the images are written.
  function OwnNames(l: seq<Addon>, d: seq<Addon>, mode: Mode): set<string> {
    if mode.component then Own(l, d, {}, {}) else Own(l, d, mode.Ensured(), mode.Replacing())
  }

  // The list before the defaults are filled in; components are replaced only now.
  function Ready(l: seq<Addon>, d: seq<Addon>, images: map<string, string>, mode: Mode): (r: seq<Addon>)
    ensures |r| == |Listed(l, d)|
  {
    var imaged := Imaged(Prepared(l, d, mode), d, images);
    if mode.component then Replaced(imaged, ImagedDefaults(d, OwnNames(l, d, mode), images), {}, mode.Replacing()) else imaged
  }

  // The list after all of it.
  function Final(l: seq<Addon>, d: seq<Addon>, images: map<string, string>, mode: Mode): (r: seq<Addon>)
    ensures |r| == |Listed(l, d)|
  {
    Assigned(Ready(l, d, images, mode), ImagedDefaults(d, OwnNames(l, d, mode), images), mode.component, mode.isUpgrade)
  }

  // ---- The loops over the defaults, turn by turn ----

  lemma AssignedNone(l: seq<Addon>, d: seq<Addon>, component: bool, isUpgrade: bool)
    ensures Assigned(l, d[..0], component, isUpgrade) == l
  {
    assert Names(d[..0]) == [];
  }

  lemma NamesPrefix(d: seq<Addon>, k: nat)
    requires k < |d| && Distinct(Names(d))
    ensures Names(d[..k + 1]) == Names(d[..k]) + [d[k].name] && d[k].name !in Names(d[..k])
  {
    assert forall j :: 0 <= j < k ==> Names(d)[j] == Names(d[..k])[j];
    assert Names(d)[k] == d[k].name;
  }

  lemma IndexOneMore(names: seq<string>, last: string, name: string)
    requires last !in names
    ensures IndexOf(names + [last], name) == if name == last then |names| else IndexOf(names, name)
  {
    assert (names + [last])[..|names|] == names;
  }

  lemma AssignedStep(l: seq<Addon>, d: seq<Addon>, component: bool, isUpgrade: bool, k: nat)
    requires k < |d| && Distinct(Names(d))
    ensures Assigned(l, d[..k + 1], component, isUpgrade)
         == AssignedOne(Assigned(l, d[..k], component, isUpgrade), d[k], component, isUpgrade)
  {
    hide Assign, IndexOf, Names;
    NamesPrefix(d, k);
    AssignedNames(l, d[..k], component, isUpgrade);
    forall i | 0 <= i < |l|
      ensures AssignedAt(l, d[..k + 1], component, isUpgrade, i)
           == AssignedOne(Assigned(l, d[..k], component, isUpgrade), d[k], component, isUpgrade)[i]
    {
      IndexOneMore(Names(d[..k]), d[k].name, l[i].name);
    }
  }

  function ImagedOne(l: seq<Addon>, name: string, images: map<string, string>): seq<Addon> {
    var i := IndexOf(Names(l), name);
    if i < 0 || ImageFor(images, name) == "" then l else l[i := WithImage(l[i], ImageFor(images, name))]
  }

  lemma ImagedNone(l: seq<Addon>, d: seq<Addon>, images: map<string, string>)
    ensures Imaged(l, d[..0], images) == l && ImagesFit(l, d[..0], images)
  {
    assert Names(d[..0]) == [];
  }

  lemma ImagedNames(l: seq<Addon>, d: seq<Addon>, images: map<string, string>)
    ensures Names(Imaged(l, d, images)) == Names(l)
  {
  }

  predicate ImageFits(l: seq<Addon>, name: string, images: map<string, string>) {
    var i := IndexOf(Names(l), name);
    i >= 0 && ImageFor(images, name) != "" ==> l[i].containers != []
  }

  lemma ImagedStep(l: seq<Addon>, d: seq<Addon>, images: map<string, string>, k: nat)
    requires k < |d| && Distinct(Names(d))
    ensures Imaged(l, d[..k + 1], images) == ImagedOne(Imaged(l, d[..k], images), d[k].name, images)
    ensures ImagesFit(l, d[..k + 1], images) <==> ImagesFit(l, d[..k], images) && ImageFits(l, d[k].name, images)
    ensures IndexOf(Names(l), d[k].name) >= 0 ==>
              Imaged(l, d[..k], images)[IndexOf(Names(l), d[k].name)] == l[IndexOf(Names(l), d[k].name)]
  {
    hide IndexOf, Names, WithImage;
    NamesPrefix(d, k);
    ImagedNames(l, d[..k], images);
    forall i | 0 <= i < |l|
      ensures Customized(l, d[..k + 1], images, i) <==>
              Customized(l, d[..k], images, i) || (IndexOf(Names(l), d[k].name) == i && ImageFor(images, d[k].name) != "")
      ensures IndexOf(Names(l), d[k].name) == i ==> !Customized(l, d[..k], images, i)
    {
      IndexOneMore(Names(d[..k]), d[k].name, l[i].name);
    }
  }

  // The defaults while the images of the first k of them have been written.
  function ImagedSoFar(d: seq<Addon>, own: set<string>, images: map<string, string>, k: nat): (r: seq<Addon>)
    requires k <= |d|
    ensures |r| == |d|
  {
    ImagedDefaults(d[..k], own, images) + d[k..]
  }

  lemma ImagedDefaultsStep(d: seq<Addon>, own: set<string>, images: map<string, string>, k: nat)
    requires k < |d|
    ensures ImagedSoFar(d, own, images, k)[k] == d[k]
    ensures ImagedSoFar(d, own, images, k + 1)
         == if d[k].name !in own && ImageFor(images, d[k].name) != ""
            then ImagedSoFar(d, own, images, k)[k := WithImage(d[k], ImageFor(images, d[k].name))]
            else ImagedSoFar(d, own, images, k)
  {
  }

  lemma ImagedDefaultsEnds(d: seq<Addon>, own: set<string>, images: map<string, string>)
    ensures ImagedSoFar(d, own, images, 0) == d
    ensures ImagedSoFar(d, own, images, |d|) == ImagedDefaults(d, own, images)
  {
    assert d[..|d|] == d;
  }

  lemma ImagesKeepForm(d: seq<Addon>, own: set<string>, images: map<string, string>)
    requires WellFormed(d)
    ensures WellFormed(ImagedDefaults(d, own, images))
  {
    var r := ImagedDefaults(d, own, images);
    assert Names(r) == Names(d);
    forall k | 0 <= k < |d|
      ensures Distinct(ContainerNames(r[k].containers))
    {
      assert ContainerNames(r[k].containers) == ContainerNames(d[k].containers);
    }
  }

  lemma ImagedSoFarNames(d: seq<Addon>, own: set<string>, images: map<string, string>, k: nat)
    requires k <= |d|
    ensures Names(ImagedSoFar(d, own, images, k)) == Names(d)
  {
  }

  // Where a default name is first listed: among the user's entries, or after them.
  lemma UserFirst(l: seq<Addon>, d: seq<Addon>, name: string)
    requires name in Names(d)
    ensures IndexOf(Names(Listed(l, d)), name) >= 0
    ensures IndexOf(Names(Listed(l, d)), name) < |l| <==> name in Names(l)
  {
    hide Names, IndexOf;
    ListedNames(l, d);
    if name !in Names(l) {
      MissingNames(l, d, name);
      assert name in Names(Listed(l, d));
    } else {
      var j :| 0 <= j < |l| && Names(l)[j] == name;
      assert Names(Listed(l, d))[j] == name;
    }
  }

  lemma NoFit(l: seq<Addon>, d: seq<Addon>, k: nat, images: map<string, string>)
    requires k < |d| && IndexOf(Names(l), d[k].name) >= 0 && !ImageFits(l, d[k].name, images)
    ensures !ImagesFit(l, d, images)
  {
    var i := IndexOf(Names(l), d[k].name);
    assert Names(d)[k] == d[k].name;
    assert Customized(l, d, images, i);
  }

  // ---- What custom images do ----

  // The default's image for the first container of an entry, if it has that container.
  function DefaultImage(cs: seq<Container>, ds: seq<Container>, image: string): string {
    if cs == [] || IndexOf(ContainerNames(ds), cs[0].name) < 0 then image else ds[IndexOf(ContainerNames(ds), cs[0].name)].image
  }

  lemma ImagedDefaultsNames(d: seq<Addon>, own: set<string>, images: map<string, string>)
    ensures Names(ImagedDefaults(d, own, images)) == Names(d)
  {
  }

  lemma UserImage(a: Addon, d: Addon, image: string, component: bool, isUpgrade: bool)
    requires a.containers != [] && a.data == "" && image != ""
    requires Assign(WithImage(a, image), d, component, isUpgrade).enabled == Some(true)
    ensures var final := Assign(WithImage(a, image), d, component, isUpgrade);
            final.containers != [] &&
            (final.containers[0].image == image <==> !isUpgrade || DefaultImage(a.containers, d.containers, image) == image)
  {
    hide FilledConfig, Merged, IndexOf;
    FirstFilled(WithImage(a, image).containers, d.containers, isUpgrade);
  }

  lemma SharedImage(a: Addon, d: Addon, image: string, component: bool, isUpgrade: bool)
    requires d.containers != [] && d.data == "" && Distinct(ContainerNames(d.containers))
    requires a.containers == d.containers && a.data == ""
    requires Assign(WithImage(a, image), WithImage(d, image), component, isUpgrade).enabled == Some(true)
    ensures Assign(WithImage(a, image), WithImage(d, image), component, isUpgrade).containers == WithImage(d, image).containers
    ensures WithImage(d, image).containers != [] && WithImage(d, image).containers[0].image == image
  {
    hide FilledConfig, Merged;
    var cs := WithImage(d, image).containers;
    assert ContainerNames(cs) == ContainerNames(d.containers);
    MergeSelf(cs, |cs|, isUpgrade);
    assert cs[..|cs|] == cs;
  }

  lemma FirstFilled(cs: seq<Container>, ds: seq<Container>, isUpgrade: bool)
    requires cs != []
    ensures var r := Merged(cs, ds, isUpgrade);
            r[0] == if IndexOf(ContainerNames(ds), cs[0].name) < 0 then cs[0]
                    else Fill(cs[0], ds[IndexOf(ContainerNames(ds), cs[0].name)], isUpgrade)
  {
    assert IndexOf(ContainerNames(cs), cs[0].name) == 0 by {
      assert ContainerNames(cs)[0] == cs[0].name;
    }
  }

  // ---- The final list ----

  lemma UpgradedNames(l: seq<Addon>, d: seq<Addon>, mode: Mode)
    ensures Names(Upgraded(l, d, mode)) == Names(Listed(l, d))
  {
    hide Names, Replaced, Converted, Listed;
    ReplacedNames(Listed(l, d), d, mode.Ensured(), mode.Replacing());
    ConvertedNames(Replaced(Listed(l, d), d, mode.Ensured(), mode.Replacing()), mode.profiles);
  }

  // The autoscaler is given pools.
  predicate Moves(l: seq<Addon>, d: seq<Addon>, mode: Mode) {
    !mode.component && mode.isUpgrade && Converts(Listed(l, d), mode.profiles)
  }

  // What that makes of entry i.
  function Moved(l: seq<Addon>, d: seq<Addon>, mode: Mode, i: nat, a: Addon): Addon
    requires |Listed(l, d)| > 0
  {
    if !Moves(l, d, mode) then a else
      var b := if i == 0 then WithoutLimits(a) else a;
      if i == IndexOf(Names(Listed(l, d)), AUTOSCALER)
      then b.(pools := PoolsOf(mode.profiles, Replaced(Listed(l, d), d, mode.Ensured(), mode.Replacing())[0].config)) else b
  }

  lemma ScalerNotReplaced(mode: Mode)
    ensures AUTOSCALER !in mode.Ensured() + mode.Replacing() + {NETWORK_MONITOR}
  {
    assert |AUTOSCALER| == 18 && |DISK_CSI| == 20 && |FILE_CSI| == 20 && |NODE_MANAGER| == 18 && |CLOUD_MANAGER| == 24;
    assert AUTOSCALER[2] == 'u' && NODE_MANAGER[2] == 'o' && |NETWORK_MONITOR| == 24;
  }

  lemma ConvertsAnyway(l: seq<Addon>, d: seq<Addon>, mode: Mode, ps: seq<Profile>)
    ensures Converts(Replaced(l, d, mode.Ensured(), mode.Replacing()), ps) == Converts(l, ps)
  {
    hide Names, IndexOf;
    ReplacedNames(l, d, mode.Ensured(), mode.Replacing());
    ScalerNotReplaced(mode);
  }

  lemma UpgradedAt(l: seq<Addon>, d: seq<Addon>, mode: Mode, i: nat)
    requires i < |Listed(l, d)| && !mode.component
    ensures Upgraded(l, d, mode)[i]
         == Moved(l, d, mode, i, Replaced(Listed(l, d), d, mode.Ensured(), mode.Replacing())[i])
  {
    hide Names, IndexOf, Replaced, Converted, Listed, WithoutLimits, PoolsOf, Converts;
    var replaced := Replaced(Listed(l, d), d, mode.Ensured(), mode.Replacing());
    ReplacedNames(Listed(l, d), d, mode.Ensured(), mode.Replacing());
    ConvertsAnyway(Listed(l, d), d, mode, mode.profiles);
    ConvertedAt(replaced, mode.profiles, i);
  }

  lemma PreparedNames(l: seq<Addon>, d: seq<Addon>, mode: Mode)
    ensures Names(Prepared(l, d, mode)) == Names(Listed(l, d))
  {
    hide Names, Upgraded, MonitorOff, Listed;
    UpgradedNames(l, d, mode);
    MonitorOffNames(Upgraded(l, d, mode), mode.isUpgrade);
  }

  lemma ReadyNames(l: seq<Addon>, d: seq<Addon>, images: map<string, string>, mode: Mode)
    ensures Names(Ready(l, d, images, mode)) == Names(Listed(l, d))
  {
    hide Names, Replaced, Imaged, Prepared, Listed, ImagedDefaults, OwnNames;
    PreparedNames(l, d, mode);
    ImagedNames(Prepared(l, d, mode), d, images);
    ReplacedNames(Imaged(Prepared(l, d, mode), d, images), ImagedDefaults(d, OwnNames(l, d, mode), images), {}, mode.Replacing());
  }

  // The entry is the first one of its name and there is a default of that name.
  predicate Concerns(l: seq<Addon>, d: seq<Addon>, i: nat)
    requires i < |l|
  {
    IndexOf(Names(l), l[i].name) == i && IndexOf(Names(d), l[i].name) >= 0
  }

  // On upgrade the entry was replaced by its default.
  predicate Overwritten(l: seq<Addon>, d: seq<Addon>, mode: Mode, i: nat)
    requires i < |Listed(l, d)|
  {
    ReplacedAt(Listed(l, d), d, mode.Ensured(), mode.Replacing(), i)
  }

  lemma OwnMeans(l: seq<Addon>, d: seq<Addon>, mode: Mode, i: nat)
    requires Distinct(Names(d)) && i < |Listed(l, d)| && Concerns(Listed(l, d), d, i)
    ensures Listed(l, d)[i].name in OwnNames(l, d, mode) <==> i < |l| && (mode.component || !Overwritten(l, d, mode, i))
  {
    hide Names, IndexOf, Listed;
    var name := Listed(l, d)[i].name;
    assert name in Names(d);
    UserFirst(l, d, name);
    FirstListed(l, d, name);
  }

  // What fills in entry i, and what it fills in.
  lemma FinalAt(l: seq<Addon>, d: seq<Addon>, images: map<string, string>, mode: Mode, i: nat)
    requires i < |Listed(l, d)|
    ensures var ready := Ready(l, d, images, mode);
            var defaults := ImagedDefaults(d, OwnNames(l, d, mode), images);
            var k := IndexOf(Names(d), Listed(l, d)[i].name);
            && ready[i].name == Listed(l, d)[i].name
            && Final(l, d, images, mode)[i].name == ready[i].name
            && Final(l, d, images, mode)[i]
               == if Concerns(Listed(l, d), d, i) then Assign(ready[i], defaults[k], mode.component, mode.isUpgrade) else ready[i]
  {
    hide Names, IndexOf, Listed, Ready, OwnNames, ImagedDefaults;
    var ready := Ready(l, d, images, mode);
    ReadyNames(l, d, images, mode);
    ImagedDefaultsNames(d, OwnNames(l, d, mode), images);
    assert Names(ready)[i] == Names(Listed(l, d))[i];
  }

  // What becomes of entry i before it is filled in.
  lemma ReadyAt(l: seq<Addon>, d: seq<Addon>, images: map<string, string>, mode: Mode, i: nat)
    requires i < |Listed(l, d)| && Concerns(Listed(l, d), d, i)
    ensures var k := IndexOf(Names(d), Listed(l, d)[i].name);
            var image := ImageFor(images, Listed(l, d)[i].name);
            var before := PreparedAt(l, d, mode, i);
            && Prepared(l, d, mode)[i] == before
            && Ready(l, d, images, mode)[i]
               == if mode.component && Overwritten(l, d, mode, i) then ImagedDefaults(d, OwnNames(l, d, mode), images)[k]
                  else if image != "" then WithImage(before, image) else before
  {
    hide Names, IndexOf, Listed, OwnNames, WithImage, Moved, Upgraded;
    var prepared := Prepared(l, d, mode);
    var imaged := Imaged(prepared, d, images);
    var defaults := ImagedDefaults(d, OwnNames(l, d, mode), images);
    PreparedNames(l, d, mode);
    UpgradedNames(l, d, mode);
    if !mode.component {
      UpgradedAt(l, d, mode, i);
    }
    NotMoved(l, d, mode);
    ImagedNames(prepared, d, images);
    ImagedDefaultsNames(d, OwnNames(l, d, mode), images);
    assert Names(prepared)[i] == Names(Listed(l, d))[i] == Names(imaged)[i];
  }

  // What becomes of an entry before the images, apart from its pools and limits.
  lemma PreparedFields(l: seq<Addon>, d: seq<Addon>, mode: Mode, i: nat)
    requires i < |Listed(l, d)| && Concerns(Listed(l, d), d, i)
    ensures var entry := Listed(l, d)[i];
            var kept := if !mode.component && Overwritten(l, d, mode, i) then d[IndexOf(Names(d), entry.name)] else entry;
            var r := PreparedAt(l, d, mode, i);
            && r.name == kept.name && r.containers == kept.containers && r.data == kept.data && r.mode == kept.mode
            && r.enabled == (if !mode.component && mode.isUpgrade && entry.name == NETWORK_MONITOR then Some(false) else kept.enabled)
  {
    hide Names, IndexOf, Listed, Moved, Overwritten;
    var entry := Listed(l, d)[i];
    var kept := if !mode.component && Overwritten(l, d, mode, i) then d[IndexOf(Names(d), entry.name)] else entry;
    MovedFields(l, d, mode, i, kept);
  }

  lemma NotMoved(l: seq<Addon>, d: seq<Addon>, mode: Mode)
    ensures mode.component && |Listed(l, d)| > 0 ==> forall i: nat, a :: Moved(l, d, mode, i, a) == a
  {
  }

  // The conversion changes nothing of an entry but its pools and its limits.
  lemma MovedFields(l: seq<Addon>, d: seq<Addon>, mode: Mode, i: nat, a: Addon)
    requires |Listed(l, d)| > 0
    ensures var r := Moved(l, d, mode, i, a);
            && r.name == a.name && r.enabled == a.enabled && r.mode == a.mode && r.containers == a.containers && r.data == a.data
            && r.config == (if i == 0 && Moves(l, d, mode) then WithoutLimits(a).config else a.config)
            && (r.pools == a.pools || (Moves(l, d, mode) && i == IndexOf(Names(Listed(l, d)), AUTOSCALER)))
  {
    hide Names, IndexOf, Limit, Moves;
  }

  // What an entry that is not replaced has become when it is filled in.
  ghost predicate Readied(a: Addon, ready: Addon, customImage: bool, moved: bool) {
    && ready.name == a.name && ready.enabled == a.enabled && ready.mode == a.mode && ready.data == a.data
    && (a.pools != [] ==> ready.pools == a.pools)
    && ready.config == (if moved then WithoutLimits(a).config else a.config)
    && (ready.containers == a.containers
        || (customImage && exists image :: ready.containers == WithImage(a, image).containers))
  }

  lemma MovedReadied(l: seq<Addon>, d: seq<Addon>, mode: Mode, i: nat)
    requires i < |Listed(l, d)|
    ensures Readied(Listed(l, d)[i], Moved(l, d, mode, i, Listed(l, d)[i]), false, i == 0 && Moves(l, d, mode))
  {
    hide Names, IndexOf, WithoutLimits, Moved, Listed;
    MovedFields(l, d, mode, i, Listed(l, d)[i]);
  }

  function PreparedAt(l: seq<Addon>, d: seq<Addon>, mode: Mode, i: nat): Addon
    requires i < |Listed(l, d)| && Concerns(Listed(l, d), d, i)
  {
    var entry := Listed(l, d)[i];
    var kept := if !mode.component && Overwritten(l, d, mode, i) then d[IndexOf(Names(d), entry.name)] else entry;
    var moved := Moved(l, d, mode, i, kept);
    if !mode.component && mode.isUpgrade && entry.name == NETWORK_MONITOR then moved.(enabled := Some(false)) else moved
  }

  // The user's entries come first, in their order, and every default name is listed, whatever
  // the mode and the images.
  lemma FinalNames(l: seq<Addon>, d: seq<Addon>, images: map<string, string>, mode: Mode)
    ensures Names(Final(l, d, images, mode)) == Names(l) + Names(MissingAddons(d, Names(l)))
    ensures forall name :: name in Names(Final(l, d, images, mode)) <==> name in Names(l) || name in Names(d)
  {
    hide Names, Assigned, Ready, Listed, ImagedDefaults, OwnNames;
    ReadyNames(l, d, images, mode);
    AssignedNames(Ready(l, d, images, mode), ImagedDefaults(d, OwnNames(l, d, mode), images), mode.component, mode.isUpgrade);
    NamesKept(l, d, mode.component, mode.isUpgrade);
    AssignedNames(Listed(l, d), d, mode.component, mode.isUpgrade);
  }

  // Without an upgrade and without images, all there is to it is appending and filling in.
  lemma NoImages(l: seq<Addon>, d: seq<Addon>, mode: Mode)
    requires !mode.isUpgrade
    ensures Final(l, d, map[], mode) == Reconciled(l, d, mode.component, false)
    ensures ImagesFit(Prepared(l, d, mode), d, map[])
  {
    var prepared := Prepared(l, d, mode);
    ReplacedNone(Listed(l, d), d);
    assert prepared == Listed(l, d);
    assert Imaged(prepared, d, map[]) == prepared;
    var defaults := ImagedDefaults(d, OwnNames(l, d, mode), map[]);
    assert defaults == d;
    ReplacedNone(prepared, defaults);
  }

  // ---- Who is enabled in the end ----

  predicate DefaultOn(d: seq<Addon>, name: string) {
    var k := IndexOf(Names(d), name);
    k >= 0 && d[k].enabled == Some(true)
  }

  // The user's word if there is one, otherwise the default; except that an upgrade turns the
  // network monitor off, takes the default for an addon it replaces in any case, and turns on
  // by default one that it replaces unless enabled.
  predicate EndsEnabled(l: seq<Addon>, d: seq<Addon>, mode: Mode, name: string) {
    if !mode.component && mode.isUpgrade && name == "azure-cni-networkmonitor" then false
    else if AlwaysReplaced(mode, name) then DefaultOn(d, name)
    else if ReplacedIfOff(mode, name) then Enabled(l, name) || DefaultOn(d, name)
    else Decided(l, d, name)
  }

  predicate AlwaysReplaced(mode: Mode, name: string) {
    mode.isUpgrade && mode.stackWithCcm && name == if mode.component then "cloud-controller-manager" else "cloud-node-manager"
  }

  predicate ReplacedIfOff(mode: Mode, name: string) {
    && !mode.component && mode.isUpgrade && mode.azureAddons
    && name in {"azuredisk-csi-driver", "azurefile-csi-driver", "cloud-node-manager"}
  }

  // Which entries are replaced.
  lemma OverwrittenMeans(l: seq<Addon>, d: seq<Addon>, mode: Mode, i: nat)
    requires i < |Listed(l, d)| && Concerns(Listed(l, d), d, i)
    ensures var entry := Listed(l, d)[i];
            Overwritten(l, d, mode, i)
            <==> AlwaysReplaced(mode, entry.name) || (ReplacedIfOff(mode, entry.name) && entry.enabled != Some(true))
  {
    hide Names, IndexOf, Listed;
  }

  lemma UpgradeNames(mode: Mode, name: string)
    ensures name in mode.Replacing() <==> AlwaysReplaced(mode, name)
    ensures name in mode.Ensured() <==> ReplacedIfOff(mode, name)
    ensures NETWORK_MONITOR == "azure-cni-networkmonitor"
  {
  }

  lemma EnabledAfter(l: seq<Addon>, d: seq<Addon>, images: map<string, string>, mode: Mode, name: string)
    requires Distinct(Names(d)) && name in Names(d)
    ensures Enabled(Final(l, d, images, mode), name) <==> EndsEnabled(l, d, mode, name)
  {
    hide Merged, FilledConfig, Listed, Names, IndexOf, Ready, Final, OwnNames, PreparedAt, Assign, AlwaysReplaced, ReplacedIfOff;
    var listed := Listed(l, d);
    FirstListed(l, d, name);
    var i := IndexOf(Names(listed), name);
    assert listed[i].name == name;
    FinalNamesListed(l, d, images, mode);
    FinalAt(l, d, images, mode, i);
    AssignEnables(Ready(l, d, images, mode)[i], ImagedDefaults(d, OwnNames(l, d, mode), images)[IndexOf(Names(d), name)],
                  mode.component, mode.isUpgrade);
    ReadyAt(l, d, images, mode, i);
    PreparedFields(l, d, mode, i);
    EnabledAt(d, OwnNames(l, d, mode), images, IndexOf(Names(d), name));
    MonitorNotReplaced(mode);
    UpgradeNames(mode, name);
  }

  lemma FinalNamesListed(l: seq<Addon>, d: seq<Addon>, images: map<string, string>, mode: Mode)
    ensures Names(Final(l, d, images, mode)) == Names(Listed(l, d))
  {
    hide Assigned, Ready, Listed, ImagedDefaults, OwnNames;
    ReadyNames(l, d, images, mode);
    AssignedNames(Ready(l, d, images, mode), ImagedDefaults(d, OwnNames(l, d, mode), images), mode.component, mode.isUpgrade);
  }

  lemma EnabledAt(d: seq<Addon>, own: set<string>, images: map<string, string>, k: int)
    requires 0 <= k < |d|
    ensures ImagedDefaults(d, own, images)[k].enabled == d[k].enabled
  {
  }

  lemma MonitorNotReplaced(mode: Mode)
    ensures NETWORK_MONITOR !in mode.Ensured() + mode.Replacing()
  {
    assert |NETWORK_MONITOR| == 24 && |CLOUD_MANAGER| == 24 && NETWORK_MONITOR[0] == 'a' && CLOUD_MANAGER[0] == 'c';
  }

  lemma DnsNotReplaced(mode: Mode, name: string)
    requires !mode.component && (name == KUBE_DNS || name == CORE_DNS)
    ensures name !in mode.Ensured() + mode.Replacing() + {NETWORK_MONITOR}
  {
    assert |KUBE_DNS| == 8 && |CORE_DNS| == 7;
  }

  // Both end up enabled exactly if the user explicitly enabled both.
  lemma NotBothEnabled(l: seq<Addon>, d: seq<Addon>, images: map<string, string>, mode: Mode)
    requires Distinct(Names(d)) && DnsDefaults(l, d) && KUBE_DNS in Names(d) && CORE_DNS in Names(d) && !mode.component
    ensures var final := Final(l, d, images, mode);
            Enabled(final, KUBE_DNS) && Enabled(final, CORE_DNS) <==> Enabled(l, KUBE_DNS) && Enabled(l, CORE_DNS)
  {
    hide Names, Final;
    EnabledAfter(l, d, images, mode, KUBE_DNS);
    EnabledAfter(l, d, images, mode, CORE_DNS);
    DnsNotReplaced(mode, KUBE_DNS);
    DnsNotReplaced(mode, CORE_DNS);
  }

  // An upgrade turns on an addon that the user disabled.
  lemma UpgradeOverridesUser()
    ensures var off := Addon(FILE_CSI, Some(false), "", [], map[], [], "");
            var on := Addon(FILE_CSI, Some(true), "", [], map[], [], "");
            Enabled(Final([off], [on], map[], Mode(false, true, true, false, [])), FILE_CSI)
  {
    hide Final;
    var off := Addon(FILE_CSI, Some(false), "", [], map[], [], "");
    var on := Addon(FILE_CSI, Some(true), "", [], map[], [], "");
    assert Names([on]) == [FILE_CSI] && [FILE_CSI][..0] == [];
    assert IndexOf([FILE_CSI], FILE_CSI) == 0;
    MonitorNotReplaced(Mode(false, true, true, false, []));
    EnabledAfter([off], [on], map[], Mode(false, true, true, false, []), FILE_CSI);
    assert FILE_CSI in Mode(false, true, true, false, []).Ensured();
  }

  // ---- What becomes of the user's entries ----

  // An enabled entry without raw data that no upgrade step replaces keeps all that the user
  // set, except images on upgrade, a custom image and forced configuration; the default
  // containers it lacks come after its own.
  lemma UserFieldsKept(l: seq<Addon>, d: seq<Addon>, images: map<string, string>, mode: Mode, i: nat)
    requires Distinct(Names(d)) && i < |l| && !Overwritten(l, d, mode, i)
    requires Final(l, d, images, mode)[i].enabled == Some(true) && l[i].data == ""
    ensures FieldsKept(l[i], Final(l, d, images, mode)[i], mode, ImageFor(images, l[i].name) != "", i == 0 && Moves(l, d, mode))
  {
    hide FilledConfig, Names, IndexOf, Ready, Final, OwnNames, Merged, FieldsKept, Moved, WithoutLimits, Moves, Readied, Assign;
    assert Listed(l, d)[i] == l[i];
    FinalAt(l, d, images, mode, i);
    var moved, customImage := i == 0 && Moves(l, d, mode), ImageFor(images, l[i].name) != "";
    if Concerns(Listed(l, d), d, i) {
      var ready := Ready(l, d, images, mode)[i];
      var default := ImagedDefaults(d, OwnNames(l, d, mode), images)[IndexOf(Names(d), l[i].name)];
      AssignEnables(ready, default, mode.component, mode.isUpgrade);
      ReadyKept(l, d, images, mode, i);
      AssignKeeps(l[i], ready, default, mode, customImage, moved);
    } else {
      ReadyUnconcerned(l, d, images, mode, i);
      KeptUntouched(l[i], Final(l, d, images, mode)[i], mode, customImage, moved);
    }
  }

  // Every configuration entry of one that is not replaced: the default's, where there is one,
  // if the user's is missing or empty, or if it is the command of a component on upgrade;
  // otherwise the user's.
  lemma FinalValue(l: seq<Addon>, d: seq<Addon>, images: map<string, string>, mode: Mode, i: nat, key: string)
    requires Distinct(Names(d)) && i < |Listed(l, d)| && Concerns(Listed(l, d), d, i) && !Overwritten(l, d, mode, i)
    requires Final(l, d, images, mode)[i].enabled == Some(true) && Final(l, d, images, mode)[i].data == ""
    requires !(i == 0 && Moves(l, d, mode) && key in {MIN_NODES, MAX_NODES})
    ensures var user, default := Listed(l, d)[i].config, d[IndexOf(Names(d), Listed(l, d)[i].name)].config;
            Get(Final(l, d, images, mode)[i].config, key)
            == if key in default && ((mode.component && mode.isUpgrade && key == "command") || Limit(user, key) == "")
               then Some(default[key]) else Get(user, key)
  {
    hide Names, IndexOf, Ready, Final, OwnNames, Moves, WithoutLimits, Assign, Merged, Overwritten, Listed, Readied;
    FinalAt(l, d, images, mode, i);
    ReadyKept(l, d, images, mode, i);
    var entry, ready := Listed(l, d)[i], Ready(l, d, images, mode)[i];
    var k := IndexOf(Names(d), entry.name);
    var default := ImagedDefaults(d, OwnNames(l, d, mode), images)[k];
    AssignEnables(ready, default, mode.component, mode.isUpgrade);
    AssignData(ready, default, mode.component, mode.isUpgrade);
    LimitsAlone(entry);
    ReadiedConfig(entry, ready, ImageFor(images, entry.name) != "", i == 0 && Moves(l, d, mode));
    SameConfig(d, OwnNames(l, d, mode), images, k);
    AssignConfig(ready, default, mode);
    FilledValue(ready.config, default.config, Forced(mode.component, mode.isUpgrade), key);
    assert Get(ready.config, key) == Get(entry.config, key);
  }

  lemma ReadiedConfig(a: Addon, ready: Addon, customImage: bool, moved: bool)
    requires Readied(a, ready, customImage, moved)
    ensures ready.config == (if moved then WithoutLimits(a).config else a.config)
  {
  }

  lemma SameConfig(d: seq<Addon>, own: set<string>, images: map<string, string>, k: nat)
    requires k < |d|
    ensures ImagedDefaults(d, own, images)[k].config == d[k].config
  {
  }

  lemma AssignConfig(a: Addon, d: Addon, mode: Mode)
    requires Assign(a, d, mode.component, mode.isUpgrade).enabled == Some(true) && a.data == ""
    ensures Assign(a, d, mode.component, mode.isUpgrade).config
         == FilledConfig(a.config, d.config, Forced(mode.component, mode.isUpgrade))
  {
    hide Merged, FilledConfig;
  }

  lemma FilledValue(config: map<string, string>, d: map<string, string>, forced: set<string>, key: string)
    ensures Get(FilledConfig(config, d, forced), key)
         == if key in d && (key in forced || Limit(config, key) == "") then Some(d[key]) else Get(config, key)
  {
  }

  // The two limits of the user's first entry are gone exactly if the autoscaler is given pools.
  lemma LimitsMoveAway(l: seq<Addon>, d: seq<Addon>, images: map<string, string>, mode: Mode, key: string)
    requires Distinct(Names(d)) && NoLimits(d) && l != [] && !Overwritten(l, d, mode, 0)
    requires Final(l, d, images, mode)[0].enabled == Some(true) && l[0].data == "" && key in {MIN_NODES, MAX_NODES}
    ensures Limit(Final(l, d, images, mode)[0].config, key) == if Moves(l, d, mode) then "" else Limit(l[0].config, key)
  {
    hide Names, IndexOf, Ready, Final, OwnNames, Moves, WithoutLimits, Assign, Limit, Merged, NoLimits, Overwritten, Listed;
    FirstOfUser(l, d);
    FinalAt(l, d, images, mode, 0);
    LimitsAlone(l[0]);
    var ready := Ready(l, d, images, mode)[0];
    if Concerns(Listed(l, d), d, 0) {
      var k := IndexOf(Names(d), l[0].name);
      var default := ImagedDefaults(d, OwnNames(l, d, mode), images)[k];
      AssignEnables(ready, default, mode.component, mode.isUpgrade);
      ReadyKept(l, d, images, mode, 0);
      DefaultLimits(d, OwnNames(l, d, mode), images, k);
      AssignLimit(ready, default, mode, key);
    } else {
      ReadyUnconcerned(l, d, images, mode, 0);
    }
  }

  lemma FirstOfUser(l: seq<Addon>, d: seq<Addon>)
    requires l != []
    ensures |Listed(l, d)| > 0 && Listed(l, d)[0] == l[0]
  {
  }

  lemma DefaultLimits(d: seq<Addon>, own: set<string>, images: map<string, string>, k: nat)
    requires k < |d| && NoLimits(d)
    ensures Limit(ImagedDefaults(d, own, images)[k].config, MIN_NODES) == ""
    ensures Limit(ImagedDefaults(d, own, images)[k].config, MAX_NODES) == ""
  {
  }

  lemma AssignLimit(a: Addon, d: Addon, mode: Mode, key: string)
    requires key in {MIN_NODES, MAX_NODES} && Limit(d.config, key) == "" && a.data == ""
    requires Assign(a, d, mode.component, mode.isUpgrade).enabled == Some(true)
    ensures Limit(Assign(a, d, mode.component, mode.isUpgrade).config, key) == Limit(a.config, key)
  {
    hide Merged;
    assert |MIN_NODES| == |MAX_NODES| == 9 && |"command"| == 7;
  }

  // The pools of the autoscaler afterwards: the limits of the first entry come with the first.
  lemma ScalerPools(l: seq<Addon>, d: seq<Addon>, images: map<string, string>, mode: Mode)
    requires Moves(l, d, mode) && l != [] && !Overwritten(l, d, mode, 0)
    requires Listed(l, d)[IndexOf(Names(Listed(l, d)), AUTOSCALER)].data == ""
    ensures Final(l, d, images, mode)[IndexOf(Names(Listed(l, d)), AUTOSCALER)].pools == PoolsOf(mode.profiles, l[0].config)
  {
    hide Names, Ready, Final, OwnNames, Overwritten, Listed, PoolsOf, Prepared, IndexOf, ReplacedAt;
    FirstOfUser(l, d);
    var a := IndexOf(Names(Listed(l, d)), AUTOSCALER);
    FinalAt(l, d, images, mode, a);
    ScalerReady(l, d, images, mode);
    FirstNotReplaced(l, d, mode);
    assert PoolsOf(mode.profiles, l[0].config) != [] by {
      assert |PoolsOf(mode.profiles, l[0].config)| == |mode.profiles|;
    }
    if Concerns(Listed(l, d), d, a) {
      AssignPools(Ready(l, d, images, mode)[a],
                  ImagedDefaults(d, OwnNames(l, d, mode), images)[IndexOf(Names(d), Listed(l, d)[a].name)], mode);
    }
  }

  lemma AssignPools(a: Addon, d: Addon, mode: Mode)
    requires a.enabled == Some(true) && a.data == "" && a.pools != []
    ensures Assign(a, d, mode.component, mode.isUpgrade).pools == a.pools
  {
    hide Merged, FilledConfig;
  }

  lemma FirstNotReplaced(l: seq<Addon>, d: seq<Addon>, mode: Mode)
    requires l != [] && !Overwritten(l, d, mode, 0)
    ensures Replaced(Listed(l, d), d, mode.Ensured(), mode.Replacing())[0] == l[0]
  {
    hide ReplacedAt, Listed;
    FirstOfUser(l, d);
  }

  lemma ScalerReady(l: seq<Addon>, d: seq<Addon>, images: map<string, string>, mode: Mode)
    requires Moves(l, d, mode)
    ensures var a := IndexOf(Names(Listed(l, d)), AUTOSCALER);
            var ready := Ready(l, d, images, mode)[a];
            && ready.enabled == Some(true) && ready.data == Listed(l, d)[a].data
            && ready.pools == PoolsOf(mode.profiles, Replaced(Listed(l, d), d, mode.Ensured(), mode.Replacing())[0].config)
  {
    hide Names, Listed, OwnNames, PoolsOf, IndexOf, Upgraded, WithoutLimits;
    var a := IndexOf(Names(Listed(l, d)), AUTOSCALER);
    ScalerNotReplaced(mode);
    UpgradedNames(l, d, mode);
    UpgradedAt(l, d, mode, a);
    PreparedNames(l, d, mode);
    assert Names(Listed(l, d))[a] == AUTOSCALER;
    MovedFields(l, d, mode, a, Listed(l, d)[a]);
  }

  // The old form of the autoscaler's limits, and what an upgrade makes of it.
  lemma OldScalerConverted()
    ensures var limits := map[MIN_NODES := "2", MAX_NODES := "5"];
            var user := [Addon(AUTOSCALER, Some(true), "", [], limits, [], "")];
            var default := [Addon(AUTOSCALER, Some(false), "", [], map[], [], "")];
            var final := Final(user, default, map[], Mode(false, true, false, false, [Profile("pool", "3")]));
            && Limit(final[0].config, MIN_NODES) == Limit(final[0].config, MAX_NODES) == ""
            && final[0].pools == [Pool("pool", limits)]
  {
    hide Final, Merged;
    var limits := map[MIN_NODES := "2", MAX_NODES := "5"];
    var user := [Addon(AUTOSCALER, Some(true), "", [], limits, [], "")];
    var default := [Addon(AUTOSCALER, Some(false), "", [], map[], [], "")];
    var mode := Mode(false, true, false, false, [Profile("pool", "3")]);
    assert Names(user) == [AUTOSCALER] && Names(default) == [AUTOSCALER] && [AUTOSCALER][..0] == [];
    assert IndexOf([AUTOSCALER], AUTOSCALER) == 0;
    assert Listed(user, default) == user;
    assert Moves(user, default, mode);
    EnabledAfter(user, default, map[], mode, AUTOSCALER);
    ScalerNotReplaced(mode);
    FinalNamesListed(user, default, map[], mode);
    LimitsMoveAway(user, default, map[], mode, MIN_NODES);
    LimitsMoveAway(user, default, map[], mode, MAX_NODES);
    ScalerPools(user, default, map[], mode);
    DifferentLimits();
    assert PoolOf(Profile("pool", "3"), limits) == Pool("pool", limits);
  }

  lemma AssignData(a: Addon, d: Addon, component: bool, isUpgrade: bool)
    ensures Assign(a, d, component, isUpgrade).enabled == Some(true) ==> Assign(a, d, component, isUpgrade).data == a.data
  {
    hide Merged, FilledConfig;
  }

  lemma AssignEnables(a: Addon, d: Addon, component: bool, isUpgrade: bool)
    ensures Assign(a, d, component, isUpgrade).enabled == if a.enabled.None? then d.enabled else a.enabled
  {
    hide Merged, FilledConfig;
  }

  lemma ReadyKept(l: seq<Addon>, d: seq<Addon>, images: map<string, string>, mode: Mode, i: nat)
    requires i < |Listed(l, d)| && Concerns(Listed(l, d), d, i) && !Overwritten(l, d, mode, i)
    ensures Ready(l, d, images, mode)[i].enabled == Some(false)
         || Readied(Listed(l, d)[i], Ready(l, d, images, mode)[i], ImageFor(images, Listed(l, d)[i].name) != "",
                    i == 0 && Moves(l, d, mode))
  {
    hide Names, IndexOf, Ready, OwnNames, Moved, WithoutLimits, Moves, Listed, ImagedDefaults;
    ReadyAt(l, d, images, mode, i);
    MovedReadied(l, d, mode, i);
    SameContainers(PreparedAt(l, d, mode, i), Listed(l, d)[i]);
  }

  lemma SameContainers(a: Addon, b: Addon)
    ensures a.containers == b.containers ==> forall image :: WithImage(a, image) == a.(containers := WithImage(b, image).containers)
  {
  }

  lemma ReadyUnconcerned(l: seq<Addon>, d: seq<Addon>, images: map<string, string>, mode: Mode, i: nat)
    requires i < |Listed(l, d)| && !Concerns(Listed(l, d), d, i)
    ensures Ready(l, d, images, mode)[i].enabled == Some(false)
         || Readied(Listed(l, d)[i], Ready(l, d, images, mode)[i], false, i == 0 && Moves(l, d, mode))
  {
    hide Names, IndexOf, Listed, OwnNames, WithImage, Moved, Moves, Upgraded, Readied, WithoutLimits;
    var prepared := Prepared(l, d, mode);
    var imaged := Imaged(prepared, d, images);
    PreparedNames(l, d, mode);
    UpgradedNames(l, d, mode);
    if !mode.component {
      UpgradedAt(l, d, mode, i);
    }
    NotMoved(l, d, mode);
    MovedReadied(l, d, mode, i);
    ImagedNames(prepared, d, images);
    ImagedDefaultsNames(d, OwnNames(l, d, mode), images);
    assert Names(prepared)[i] == Names(Listed(l, d))[i] == Names(imaged)[i];
  }

  predicate HasImage(a: Addon, image: string) {
    a.containers != [] && a.containers[0].image == image
  }

  // A custom image ends up in container 0 in any case if the entry is the default at the time
  // it is written; otherwise unless the entry is replaced afterwards or an upgrade takes the
  // image of the default container of the same name.
  predicate ImageWins(l: seq<Addon>, d: seq<Addon>, mode: Mode, i: nat, image: string)
    requires i < |Listed(l, d)| && Concerns(Listed(l, d), d, i)
  {
    var default := d[IndexOf(Names(d), Listed(l, d)[i].name)];
    if i >= |l| || (Overwritten(l, d, mode, i) && !mode.component) then true
    else if Overwritten(l, d, mode, i) then HasImage(default, image)
    else !mode.isUpgrade || DefaultImage(l[i].containers, default.containers, image) == image
  }

  lemma CustomImageWins(l: seq<Addon>, d: seq<Addon>, images: map<string, string>, mode: Mode, i: nat)
    requires WellFormed(d) && i < |Listed(l, d)| && Concerns(Listed(l, d), d, i)
    requires ImagesFit(Prepared(l, d, mode), d, images) && ImageFor(images, Listed(l, d)[i].name) != ""
    requires Final(l, d, images, mode)[i].enabled == Some(true) && Final(l, d, images, mode)[i].data == ""
    ensures var image := ImageFor(images, Listed(l, d)[i].name);
            HasImage(Final(l, d, images, mode)[i], image) <==> ImageWins(l, d, mode, i, image)
  {
    hide Merged, FilledConfig, Names, IndexOf, Ready, Final, OwnNames, Prepared, PreparedAt, Listed, ImagesFit, Distinct,
      Overwritten, Assign;
    var name := Listed(l, d)[i].name;
    var image, k := ImageFor(images, name), IndexOf(Names(d), name);
    FinalAt(l, d, images, mode, i);
    ReadyAt(l, d, images, mode, i);
    OwnMeans(l, d, mode, i);
    ListedHere(l, d, i);
    FitsHere(l, d, images, mode, i);
    PreparedFields(l, d, mode, i);
    var before := PreparedAt(l, d, mode, i);
    AssignData(Ready(l, d, images, mode)[i], ImagedDefaults(d, OwnNames(l, d, mode), images)[k], mode.component, mode.isUpgrade);
    AssignEnables(Ready(l, d, images, mode)[i], ImagedDefaults(d, OwnNames(l, d, mode), images)[k], mode.component, mode.isUpgrade);
    if i >= |l| || (Overwritten(l, d, mode, i) && !mode.component) {
      if mode.component && Overwritten(l, d, mode, i) {
        SharedImage(d[k], d[k], image, mode.component, mode.isUpgrade);
      } else {
        SharedImage(before, d[k], image, mode.component, mode.isUpgrade);
      }
    } else if Overwritten(l, d, mode, i) {
      AssignSelf(d[k], mode.component, mode.isUpgrade);
    } else {
      UserImage(before, d[k], image, mode.component, mode.isUpgrade);
    }
  }

  // Where a default name is first listed is the user's entry or, after those, the default.
  lemma ListedHere(l: seq<Addon>, d: seq<Addon>, i: nat)
    requires Distinct(Names(d)) && i < |Listed(l, d)| && Concerns(Listed(l, d), d, i)
    ensures Listed(l, d)[i] == if i < |l| then l[i] else d[IndexOf(Names(d), Listed(l, d)[i].name)]
  {
    hide Names, IndexOf;
    var name := Listed(l, d)[i].name;
    assert name in Names(d);
    FirstListed(l, d, name);
    UserFirst(l, d, name);
  }

  lemma FitsHere(l: seq<Addon>, d: seq<Addon>, images: map<string, string>, mode: Mode, i: nat)
    requires i < |Listed(l, d)| && Concerns(Listed(l, d), d, i)
    requires ImagesFit(Prepared(l, d, mode), d, images) && ImageFor(images, Listed(l, d)[i].name) != ""
    ensures PreparedAt(l, d, mode, i).containers != []
  {
    hide Names, IndexOf, Prepared, Listed, PreparedAt;
    ReadyAt(l, d, images, mode, i);
    PreparedNames(l, d, mode);
    assert Names(Prepared(l, d, mode))[i] == Names(Listed(l, d))[i];
    assert Customized(Prepared(l, d, mode), d, images, i);
  }

  // A listed entry without containers makes the custom image crash.
  lemma ImageCrashes()
    ensures var user := Addon(KUBE_PROXY, Some(true), "", [], map[], [], "");
            var default := user.(containers := [Container(KUBE_PROXY, "image", "", "", "", "")]);
            !ImagesFit(Prepared([user], [default], Mode(false, false, false, false, [])), [default], map[KUBE_PROXY := "custom"])
  {
    var user := Addon(KUBE_PROXY, Some(true), "", [], map[], [], "");
    var default := user.(containers := [Container(KUBE_PROXY, "image", "", "", "", "")]);
    var mode := Mode(false, false, false, false, []);
    ReplacedNone(Listed([user], [default]), [default]);
    var prepared := Prepared([user], [default], mode);
    assert prepared[0] == user && Names(prepared)[0] == KUBE_PROXY && Names([default])[0] == KUBE_PROXY;
    assert Customized(prepared, [default], map[KUBE_PROXY := "custom"], 0);
  }

  const KUBE_PROXY := "kube-proxy"

  // No default binds the limits of a pool: they are not in the tables.
  predicate NoLimits(d: seq<Addon>) {
    forall k :: 0 <= k < |d| ==> Limit(d[k].config, MIN_NODES) == "" && Limit(d[k].config, MAX_NODES) == ""
  }

  lemma ReplacedNotMoved(l: seq<Addon>, d: seq<Addon>, mode: Mode, i: nat)
    requires NoLimits(d) && i < |Listed(l, d)| && Overwritten(l, d, mode, i)
    ensures var default := d[IndexOf(Names(d), Listed(l, d)[i].name)];
            Moved(l, d, mode, i, default) == default
  {
    hide Names, IndexOf, Listed, Limit;
    ScalerNotReplaced(mode);
    assert Names(Listed(l, d))[i] == Listed(l, d)[i].name != AUTOSCALER;
  }

  // Without an upgrade, an entry that has no default, or is not the first of its name, is left
  // alone.
  lemma OthersKept(l: seq<Addon>, d: seq<Addon>, images: map<string, string>, mode: Mode, i: nat)
    requires i < |Listed(l, d)| && !Concerns(Listed(l, d), d, i) && !mode.isUpgrade
    ensures Final(l, d, images, mode)[i] == Listed(l, d)[i]
  {
    hide Names, IndexOf, Listed, OwnNames, WithImage, Ready, Assign;
    FinalAt(l, d, images, mode, i);
    NothingReplaced(l, d, images, mode, i);
  }

  lemma NothingReplaced(l: seq<Addon>, d: seq<Addon>, images: map<string, string>, mode: Mode, i: nat)
    requires i < |Listed(l, d)| && !Concerns(Listed(l, d), d, i) && !mode.isUpgrade
    ensures Ready(l, d, images, mode)[i] == Listed(l, d)[i]
  {
    hide Names, IndexOf, Listed, OwnNames, WithImage;
    ReplacedNone(Listed(l, d), d);
    var prepared := Prepared(l, d, mode);
    assert prepared == Listed(l, d);
    var imaged := Imaged(prepared, d, images);
    ImagedNames(prepared, d, images);
    ImagedDefaultsNames(d, OwnNames(l, d, mode), images);
    ReplacedNone(imaged, ImagedDefaults(d, OwnNames(l, d, mode), images));
  }

  // One that an upgrade step replaces ends up as if the user had not listed it.
  lemma ReplacedIsDefault(l: seq<Addon>, d: seq<Addon>, images: map<string, string>, mode: Mode, i: nat)
    requires Distinct(Names(d)) && NoLimits(d) && i < |Listed(l, d)| && Overwritten(l, d, mode, i)
    ensures var k := IndexOf(Names(d), Listed(l, d)[i].name);
            var default := ImagedDefaults(d, OwnNames(l, d, mode), images)[k];
            Final(l, d, images, mode)[i] == Assign(default, default, mode.component, mode.isUpgrade)
  {
    hide Assign, Names, IndexOf, Ready, Final, Moves, NoLimits;
    OwnMeans(l, d, mode, i);
    ReplacedNotMoved(l, d, mode, i);
    ImagedDefaultsNames(d, OwnNames(l, d, mode), images);
    FinalAt(l, d, images, mode, i);
    ReadyAt(l, d, images, mode, i);
    MonitorNotReplaced(mode);
  }

  // Filling a default in from itself changes nothing, if it is enabled and has no raw data.
  lemma AssignSelf(a: Addon, component: bool, isUpgrade: bool)
    requires a.enabled == Some(true) && a.data == "" && Distinct(ContainerNames(a.containers))
    ensures Assign(a, a, component, isUpgrade) == a
  {
    hide Merged;
    MergeSelf(a.containers, |a.containers|, isUpgrade);
    assert a.containers[..|a.containers|] == a.containers;
  }

  predicate FieldsKept(a: Addon, r: Addon, mode: Mode, customImage: bool, moved: bool) {
    && r.enabled == Some(true) && Keeps(a.mode, r.mode) && (a.pools != [] ==> r.pools == a.pools)
    && (forall k :: k in a.config && !(moved && k in {MIN_NODES, MAX_NODES}) ==>
          k in r.config && (!(mode.component && mode.isUpgrade && k == "command") ==> Keeps(a.config[k], r.config[k])))
    && |r.containers| >= |a.containers|
    && (forall j :: 0 <= j < |a.containers| ==>
          KeepsContainer(a.containers[j], r.containers[j], mode.isUpgrade || (customImage && j == 0)))
    && (forall c :: c in r.containers[|a.containers|..] ==> c.name !in ContainerNames(a.containers))
  }

  lemma LimitsAlone(a: Addon)
    ensures forall k :: k !in {MIN_NODES, MAX_NODES} ==> Get(WithoutLimits(a).config, k) == Get(a.config, k)
    ensures Limit(WithoutLimits(a).config, MIN_NODES) == Limit(WithoutLimits(a).config, MAX_NODES) == ""
  {
    DifferentLimits();
  }

  function Get(config: map<string, string>, key: string): Option<string> {
    if key in config then Some(config[key]) else None
  }

  lemma KeptUntouched(a: Addon, r: Addon, mode: Mode, customImage: bool, moved: bool)
    requires Readied(a, r, false, moved) && r.enabled == Some(true)
    ensures FieldsKept(a, r, mode, customImage, moved)
  {
    hide WithoutLimits;
    LimitsAlone(a);
    forall k | k in a.config && !(moved && k in {MIN_NODES, MAX_NODES})
      ensures k in r.config && r.config[k] == a.config[k]
    {
      assert Get(r.config, k) == Get(a.config, k);
    }
  }

  lemma AssignKeeps(a: Addon, ready: Addon, d: Addon, mode: Mode, customImage: bool, moved: bool)
    requires a.data == "" && Readied(a, ready, customImage, moved)
    requires Assign(ready, d, mode.component, mode.isUpgrade).enabled == Some(true)
    ensures FieldsKept(a, Assign(ready, d, mode.component, mode.isUpgrade), mode, customImage, moved)
  {
    hide IndexOf, MissingContainers, WithoutLimits, FilledConfig, Merged;
    var r := Assign(ready, d, mode.component, mode.isUpgrade);
    LimitsAlone(a);
    forall k | k in a.config && !(moved && k in {MIN_NODES, MAX_NODES})
      ensures k in r.config && (!(mode.component && mode.isUpgrade && k == "command") ==> Keeps(a.config[k], r.config[k]))
    {
      assert Get(ready.config, k) == Get(a.config, k);
      ConfigKept(ready.config, d.config, Forced(mode.component, mode.isUpgrade), k);
    }
    ContainersKept(a.containers, ready.containers, d.containers, mode.isUpgrade, customImage);
  }

  lemma ConfigKept(config: map<string, string>, d: map<string, string>, forced: set<string>, key: string)
    requires key in config
    ensures key in FilledConfig(config, d, forced) && (key !in forced ==> Keeps(config[key], FilledConfig(config, d, forced)[key]))
  {
  }

  lemma ContainersKept(cs: seq<Container>, ready: seq<Container>, ds: seq<Container>, isUpgrade: bool, customImage: bool)
    requires ready == cs || (customImage && cs != [] && exists image :: ready == cs[0 := cs[0].(image := image)])
    ensures var r := Merged(ready, ds, isUpgrade);
            && |r| >= |cs|
            && (forall j :: 0 <= j < |cs| ==> KeepsContainer(cs[j], r[j], isUpgrade || (customImage && j == 0)))
            && (forall c :: c in r[|cs|..] ==> c.name !in ContainerNames(cs))
  {
    hide IndexOf, MissingContainers, Merged;
    var r := Merged(ready, ds, isUpgrade);
    assert ContainerNames(ready) == ContainerNames(cs);
    MergedTail(ready, ds, isUpgrade);
    forall j | 0 <= j < |cs|
      ensures KeepsContainer(cs[j], r[j], isUpgrade || (customImage && j == 0))
    {
      assert r[j] == Filled(ready, ds, isUpgrade, j);
    }
  }
}
