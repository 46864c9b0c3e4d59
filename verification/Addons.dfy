// pkg/api/addons.go and pkg/api/components.go on the heap: the slices of containers and the
// configuration maps are shared between the list of entries and the list of defaults.
module Addons {

  import opened GoMaps
  import opened Options
  import opened Reconcile

  // The array behind a slice of containers.  Growing a slice allocates a new array.
  class ContainerArray {
    var items: seq<Container>

    constructor (items: seq<Container>)
      ensures this.items == items
    {
      this.items := items;
    }
  }

  function Items(a: ContainerArray?): seq<Container>
    reads a
  {
    if a == null then [] else a.items
  }

  function Conf(m: StringMap?): map<string, string>
    reads m
  {
    if m == null then map[] else m.entries
  }

  // A KubernetesAddon or KubernetesComponent.  Copying one shares its array and its map.
  datatype Entry = Entry(
    name: string, enabled: Option<bool>, mode: string, containers: ContainerArray?, config: StringMap?, pools: seq<Pool>,
    data: string)
  {
    function Value(): Addon
      reads containers, config
    {
      Addon(name, enabled, mode, Items(containers), Conf(config), pools, data)
    }
  }

  // ---- One entry ----

  // GetAddonContainersIndexByName and GetContainersIndexByName.
  method GetContainersIndexByName(cs: seq<Container>, name: string) returns (i: int)
    ensures i == IndexOf(ContainerNames(cs), name)
  {
    i := 0;
    while i < |cs|
      invariant 0 <= i <= |cs| && forall j :: 0 <= j < i ==> cs[j].name != name
    {
      if cs[i].name == name {
        return i;
      }
      i := i + 1;
    }
    return -1;
  }

  method FillContainer(c: Container, d: Container, isUpgrade: bool) returns (r: Container)
    ensures r == Fill(c, d, isUpgrade)
  {
    r := c;
    if r.image == "" || isUpgrade {
      r := r.(image := d.image);
    }
    if r.cpuRequests == "" {
      r := r.(cpuRequests := d.cpuRequests);
    }
    if r.memoryRequests == "" {
      r := r.(memoryRequests := d.memoryRequests);
    }
    if r.cpuLimits == "" {
      r := r.(cpuLimits := d.cpuLimits);
    }
    if r.memoryLimits == "" {
      r := r.(memoryLimits := d.memoryLimits);
    }
  }

  // The loop over the default containers; both slices may be the same.
  method MergeContainers(a: ContainerArray?, d: ContainerArray?, isUpgrade: bool) returns (r: ContainerArray?)
    requires Distinct(ContainerNames(Items(d)))
    modifies a
    ensures Items(r) == Merged(old(Items(a)), old(Items(d)), isUpgrade)
    ensures Items(d) == old(Items(d))
    ensures r == a || fresh(r)
  {
    hide Merged, IndexOf, Fill;
    ghost var cs, ds := Items(a), Items(d);
    r := a;
    MergeNone(cs, ds, isUpgrade);
    for i := 0 to |Items(d)|
      invariant Items(d) == ds && Items(r) == Merged(cs, ds[..i], isUpgrade)
      invariant r == a || fresh(r)
    {
      MergeStep(cs, ds, isUpgrade, i);
      if a == d {
        MergeSelf(ds, i, isUpgrade);
        MergeSelf(ds, i + 1, isUpgrade);
      }
      var c := GetContainersIndexByName(Items(r), Items(d)[i].name);
      if c < 0 {
        r := new ContainerArray(Items(r) + [Items(d)[i]]);
      } else {
        var filled := FillContainer(r.items[c], Items(d)[i], isUpgrade);
        r.items := r.items[c := filled];
      }
    }
    assert ds[..|ds|] == ds;
  }

  lemma MergeNone(cs: seq<Container>, ds: seq<Container>, isUpgrade: bool)
    ensures Merged(cs, ds[..0], isUpgrade) == cs
  {
  }

  // The loop over the default configuration; both maps may be the same.
  method FillConfig(a: StringMap?, d: StringMap?, forced: set<string>) returns (r: StringMap?)
    modifies a
    ensures Conf(r) == FilledConfig(old(Conf(a)), old(Conf(d)), forced)
    ensures Conf(d) == old(Conf(d))
    ensures r == a || fresh(r)
  {
    hide FilledConfig, Only;
    r := a;
    ghost var c0, d0 := Conf(a), Conf(d);
    var todo := Conf(d).Keys;
    FillNone(c0, d0, forced);
    while todo != {}
      invariant todo <= d0.Keys && Conf(d) == d0
      invariant Conf(r) == FilledConfig(c0, Only(d0, d0.Keys - todo), forced)
      invariant r == a || fresh(r)
      decreases |todo|
    {
      var key :| key in todo;
      FillKey(c0, d0, d0.Keys - todo, key, forced);
      if a == d {
        FillSelf(c0, d0.Keys - todo, forced);
        FillSelf(c0, d0.Keys - todo + {key}, forced);
      }
      assert d0.Keys - (todo - {key}) == d0.Keys - todo + {key};
      todo := todo - {key};
      var val := Conf(d)[key];
      if r == null {
        r := new StringMap(map[]);
      }
      if key in forced || key !in r.entries || r.entries[key] == "" {
        r.entries := r.entries[key := val];
      }
    }
    OnlyAll(d0);
  }

  function Only(m: map<string, string>, keys: set<string>): map<string, string> {
    map k | k in m && k in keys :: m[k]
  }

  lemma OnlyAll(m: map<string, string>)
    ensures Only(m, m.Keys - {}) == m
  {
  }

  lemma FillNone(c: map<string, string>, d: map<string, string>, forced: set<string>)
    ensures FilledConfig(c, Only(d, d.Keys - d.Keys), forced) == c
  {
  }

  function SetKey(m: map<string, string>, key: string, val: string, forced: set<string>): map<string, string> {
    if key in forced || key !in m || m[key] == "" then m[key := val] else m
  }

  lemma FillKey(c: map<string, string>, d: map<string, string>, done: set<string>, key: string, forced: set<string>)
    requires key in d && key !in done
    ensures FilledConfig(c, Only(d, done + {key}), forced)
         == SetKey(FilledConfig(c, Only(d, done), forced), key, d[key], forced)
  {
  }

  lemma FillSelf(c: map<string, string>, done: set<string>, forced: set<string>)
    ensures FilledConfig(c, Only(c, done), forced) == c
  {
  }

  method AssignDefaultVals(a: Entry, d: Entry, component: bool, isUpgrade: bool) returns (r: Entry)
    requires Distinct(ContainerNames(Items(d.containers)))
    modifies a.containers, a.config
    ensures r.Value() == Assign(old(a.Value()), old(d.Value()), component, isUpgrade)
    ensures d.Value() == old(d.Value()) && r.name == a.name
    ensures r.containers == null || r.containers == a.containers || fresh(r.containers)
    ensures r.config == null || r.config == a.config || fresh(r.config)
  {
    hide Merged, FilledConfig, Forced;
    r := a;
    if r.enabled.None? {
      r := r.(enabled := d.enabled);
    }
    if r.enabled != Some(true) {
      return Entry(r.name, r.enabled, "", null, null, [], "");
    }
    if r.data != "" {
      return Entry(r.name, r.enabled, "", null, null, [], r.data);
    }
    r := AssignRest(r, d, component, isUpgrade);
  }

  lemma AssignEnabled(a: Addon, d: Addon, component: bool, isUpgrade: bool)
    requires a.enabled == Some(true) && a.data == ""
    ensures Assign(a, d, component, isUpgrade)
         == Addon(a.name, a.enabled, if a.mode == "" then d.mode else a.mode, Merged(a.containers, d.containers, isUpgrade),
                  FilledConfig(a.config, d.config, Forced(component, isUpgrade)),
                  if |a.pools| == 0 then a.pools + d.pools else a.pools, "")
  {
  }

  method FillModeAndPools(a: Entry, d: Entry) returns (r: Entry)
    ensures r == a.(mode := if a.mode == "" then d.mode else a.mode, pools := if |a.pools| == 0 then a.pools + d.pools else a.pools)
  {
    r := a;
    if r.mode == "" {
      r := r.(mode := d.mode);
    }
    if |r.pools| == 0 {
      r := r.(pools := r.pools + d.pools);
    }
  }

  // What is left to do for an enabled entry without raw data.
  method AssignRest(a: Entry, d: Entry, component: bool, isUpgrade: bool) returns (r: Entry)
    requires a.enabled == Some(true) && a.data == "" && Distinct(ContainerNames(Items(d.containers)))
    modifies a.containers, a.config
    ensures r.Value() == Assign(old(a.Value()), old(d.Value()), component, isUpgrade)
    ensures d.Value() == old(d.Value()) && r.name == a.name
    ensures r.containers == null || r.containers == a.containers || fresh(r.containers)
    ensures r.config == null || r.config == a.config || fresh(r.config)
  {
    hide Merged, FilledConfig, Forced, Assign, Distinct;
    AssignEnabled(a.Value(), d.Value(), component, isUpgrade);
    r := FillModeAndPools(a, d);
    var containers := MergeContainers(r.containers, d.containers, isUpgrade);
    assert Conf(a.config) == old(Conf(a.config)) && Conf(d.config) == old(Conf(d.config));
    var config := FillConfig(r.config, d.config, Forced(component, isUpgrade));
    r := r.(containers := containers, config := config);
  }

  // ---- Lists of entries ----

  ghost function Refs(es: seq<Entry>): set<object?> {
    (set i | 0 <= i < |es| :: es[i].containers as object?) + (set i | 0 <= i < |es| :: es[i].config as object?)
  }

  // The entries have these values.
  ghost predicate Holds(es: seq<Entry>, vs: seq<Addon>)
    reads Refs(es)
  {
    |es| == |vs| && forall i :: 0 <= i < |es| ==> es[i].Value() == vs[i]
  }

  predicate Apart(a: Entry, b: Entry) {
    (a.containers == null || a.containers != b.containers) && (a.config == null || a.config != b.config)
  }

  ghost predicate AllApart(es: seq<Entry>) {
    forall i, j :: 0 <= i < j < |es| ==> Apart(es[i], es[j])
  }

  // An entry may share its containers and its map with the default of its name only.
  ghost predicate Tied(es: seq<Entry>, ds: seq<Entry>) {
    forall i, k :: 0 <= i < |es| && 0 <= k < |ds| && es[i].name != ds[k].name ==> Apart(es[i], ds[k])
  }

  lemma RefsOfEntry(es: seq<Entry>, i: nat)
    requires i < |es|
    ensures es[i].containers in Refs(es) && es[i].config in Refs(es)
  {
  }

  // The references after one entry was replaced.
  lemma RefsReplaced(es: seq<Entry>, i: nat, e: Entry)
    requires i < |es|
    ensures Refs(es[i := e]) <= Refs(es) + {e.containers, e.config}
  {
  }

  lemma ApartReplaced(es: seq<Entry>, ds: seq<Entry>, i: nat, e: Entry)
    requires i < |es| && AllApart(es) && Tied(es, ds) && e.name == es[i].name
    requires e.containers == null || e.containers == es[i].containers || forall x :: x in es + ds ==> x.containers != e.containers
    requires e.config == null || e.config == es[i].config || forall x :: x in es + ds ==> x.config != e.config
    ensures AllApart(es[i := e]) && Tied(es[i := e], ds)
  {
    forall j | 0 <= j < |es| && j != i
      ensures Apart(e, es[j]) && Apart(es[j], e)
    {
      assert if i < j then Apart(es[i], es[j]) else Apart(es[j], es[i]);
      assert (es + ds)[j] == es[j];
    }
    forall k | 0 <= k < |ds| && e.name != ds[k].name
      ensures Apart(e, ds[k])
    {
      assert Apart(es[i], ds[k]);
      assert (es + ds)[|es| + k] == ds[k];
    }
  }

  // What the entry's array and map can be shared with is the default of its name.
  lemma WritesApart(es: seq<Entry>, ds: seq<Entry>, i: nat, k: nat, d: seq<Addon>)
    requires i < |es| && k < |ds| && es[i].name == ds[k].name
    requires AllApart(es) && Tied(es, ds) && Holds(ds, d) && WellFormed(d)
    ensures forall j :: 0 <= j < |es| && j != i ==> Apart(es[i], es[j])
    ensures forall j :: 0 <= j < |ds| && j != k ==> Apart(es[i], ds[j])
    ensures Distinct(ContainerNames(Items(ds[k].containers)))
  {
    assert ds[k].Value() == d[k];
    forall j | 0 <= j < |ds| && j != k
      ensures Apart(es[i], ds[j])
    {
      assert ds[j].Value() == d[j];
      assert Names(d)[j] != Names(d)[k];
    }
  }

  lemma SameLength(es: seq<Entry>, vs: seq<Addon>)
    requires Holds(es, vs)
    ensures |es| == |vs| && forall i :: 0 <= i < |es| ==> es[i].name == vs[i].name
  {
    assert forall i :: 0 <= i < |es| ==> es[i].Value() == vs[i];
  }

  function MissingEntries(ds: seq<Entry>, user: seq<string>): (r: seq<Entry>)
    ensures forall i :: 0 <= i < |r| ==> r[i] in ds && r[i].name !in user
  {
    if ds == [] then [] else
      var last := ds[|ds| - 1];
      assert ds == ds[..|ds| - 1] + [last];
      MissingEntries(ds[..|ds| - 1], user) + (if last.name in user then [] else [last])
  }

  lemma EntryMissing(ds: seq<Entry>, user: seq<string>, k: nat)
    requires k < |ds|
    ensures MissingEntries(ds[..k + 1], user)
         == if ds[k].name in user then MissingEntries(ds[..k], user) else MissingEntries(ds[..k], user) + [ds[k]]
  {
    assert ds[..k + 1][..k] == ds[..k];
  }

  lemma HoldsOneMore(es: seq<Entry>, vs: seq<Addon>, ds: seq<Entry>, d: seq<Addon>, k: nat)
    requires Holds(es, vs) && Holds(ds, d) && k < |ds|
    ensures Holds(es + [ds[k]], vs + [d[k]])
  {
    assert ds[k].Value() == d[k];
  }

  lemma OneAt(l: seq<Addon>, d: Addon, component: bool, isUpgrade: bool)
    ensures AssignedOne(l, d, component, isUpgrade)
         == var i := IndexOf(Names(l), d.name); if i < 0 then l else l[i := Assign(l[i], d, component, isUpgrade)]
  {
  }

  predicate FirstEntry(es: seq<Entry>, i: nat)
    requires i < |es|
  {
    forall j :: 0 <= j < i ==> es[j].name != es[i].name
  }

  predicate SameRefs(a: Entry, b: Entry) {
    a.containers == b.containers && a.config == b.config
  }

  // The first entry of a name shares its array and its map with the default of that name,
  // unless it is the user's own; the other entries share nothing with it.
  ghost predicate Layout(es: seq<Entry>, ds: seq<Entry>, own: set<string>) {
    forall i, k :: 0 <= i < |es| && 0 <= k < |ds| && es[i].name == ds[k].name ==>
      if FirstEntry(es, i) && es[i].name !in own then SameRefs(es[i], ds[k]) else Apart(es[i], ds[k])
  }

  ghost predicate Sharing(es: seq<Entry>, ds: seq<Entry>, own: set<string>) {
    AllApart(es) && AllApart(ds) && Tied(es, ds) && Layout(es, ds, own)
  }

  // The first n entries share nothing with the defaults; the others are defaults.
  ghost predicate Appended(es: seq<Entry>, ds: seq<Entry>, n: nat) {
    && n <= |es|
    && (forall i, k :: 0 <= i < n && 0 <= k < |ds| ==> Apart(es[i], ds[k]))
    && (forall i, k :: n <= i < |es| && 0 <= k < |ds| && es[i].name == ds[k].name ==> es[i] == ds[k])
  }

  lemma {:induction false} MissingApart(ds: seq<Entry>, user: seq<string>)
    requires AllApart(ds)
    ensures AllApart(MissingEntries(ds, user))
  {
    if ds != [] {
      var shorter := ds[..|ds| - 1];
      MissingApart(shorter, user);
      var m := MissingEntries(shorter, user);
      forall i | 0 <= i < |m|
        ensures Apart(m[i], ds[|ds| - 1])
      {
        var j :| 0 <= j < |shorter| && shorter[j] == m[i];
        assert Apart(ds[j], ds[|ds| - 1]);
      }
    }
  }

  lemma ApartAfterAppend(es: seq<Entry>, ds: seq<Entry>, user: seq<string>, d: seq<Addon>)
    requires AllApart(es) && AllApart(ds) && Holds(ds, d) && Distinct(Names(d))
    requires forall i, k :: 0 <= i < |es| && 0 <= k < |ds| ==> Apart(es[i], ds[k])
    ensures var all := es + MissingEntries(ds, user);
            AllApart(all) && Tied(all, ds) && Appended(all, ds, |es|)
  {
    var m := MissingEntries(ds, user);
    var all := es + m;
    MissingApart(ds, user);
    SameLength(ds, d);
    forall i | 0 <= i < |m|
      ensures exists j :: 0 <= j < |ds| && ds[j] == m[i]
                && forall k :: 0 <= k < |ds| && k != j ==> ds[k].name != m[i].name && Apart(m[i], ds[k])
    {
      var j :| 0 <= j < |ds| && ds[j] == m[i];
      forall k | 0 <= k < |ds| && k != j
        ensures ds[k].name != m[i].name && Apart(m[i], ds[k])
      {
        assert Names(d)[k] != Names(d)[j];
        assert if j < k then Apart(ds[j], ds[k]) else Apart(ds[k], ds[j]);
      }
    }
    forall i, j | 0 <= i < j < |all|
      ensures Apart(all[i], all[j])
    {
      if i < |es| <= j {
        assert all[j] == m[j - |es|];
        var k :| 0 <= k < |ds| && ds[k] == m[j - |es|];
        assert Apart(es[i], ds[k]);
      }
    }
  }

  lemma SharingAfterAppend(es: seq<Entry>, ds: seq<Entry>, l: seq<Addon>, d: seq<Addon>)
    requires AllApart(es) && AllApart(ds) && Holds(es, l) && Holds(ds, d) && Distinct(Names(d))
    requires forall i, k :: 0 <= i < |es| && 0 <= k < |ds| ==> Apart(es[i], ds[k])
    ensures Sharing(es + MissingEntries(ds, Names(l)), ds, Own(l, d, {}, {}))
  {
    hide Names, Distinct, Own, AllApart, Tied, Holds, Appended, Layout, MissingEntries, EntryNames;
    ApartAfterAppend(es, ds, Names(l), d);
    SameNames(es, l);
    ReplacedNone(l, d);
    NamesAfterAppend(es, ds, Names(l), Own(l, d, {}, {}));
    AppendedLayout(es + MissingEntries(ds, Names(l)), ds, |es|, Own(l, d, {}, {}));
  }

  // What is appended has none of the user's names.
  lemma NamesAfterAppend(es: seq<Entry>, ds: seq<Entry>, user: seq<string>, own: set<string>)
    requires EntryNames(es) == user && forall name :: name in own <==> name in user
    ensures var all := es + MissingEntries(ds, user);
            forall i :: 0 <= i < |all| ==> (all[i].name in own <==> i < |es|)
  {
    var m := MissingEntries(ds, user);
    var all := es + m;
    forall i | 0 <= i < |all|
      ensures all[i].name in own <==> i < |es|
    {
      if i < |es| {
        assert user[i] == all[i].name;
      } else {
        assert all[i] == m[i - |es|];
      }
    }
  }

  lemma AppendedLayout(es: seq<Entry>, ds: seq<Entry>, n: nat, own: set<string>)
    requires Appended(es, ds, n) && AllApart(es)
    requires forall i :: 0 <= i < |es| ==> (es[i].name in own <==> i < n)
    ensures Layout(es, ds, own)
  {
    forall i, k | 0 <= i < |es| && 0 <= k < |ds| && es[i].name == ds[k].name
      ensures if FirstEntry(es, i) && es[i].name !in own then SameRefs(es[i], ds[k]) else Apart(es[i], ds[k])
    {
      if i >= n && !FirstEntry(es, i) {
        var j :| 0 <= j < i && es[j].name == es[i].name;
        assert j >= n && es[j] == ds[k] && Apart(es[j], es[i]);
      }
    }
  }

  // Replacing the first entry of a name by the default of that name.
  lemma SharingReplaced(es: seq<Entry>, ds: seq<Entry>, own: set<string>, i: nat, k: nat)
    requires Sharing(es, ds, own) && i < |es| && k < |ds| && es[i].name == ds[k].name && FirstEntry(es, i)
    requires Distinct(EntryNames(ds))
    ensures Sharing(es[i := ds[k]], ds, own - {es[i].name})
  {
    var r := es[i := ds[k]];
    forall j | 0 <= j < |es| && j != i
      ensures Apart(es[j], ds[k])
    {
      if es[j].name == es[i].name {
        assert !FirstEntry(es, j);
      }
    }
    forall j | 0 <= j < |ds| && j != k
      ensures Apart(ds[k], ds[j]) && ds[j].name != ds[k].name
    {
      assert EntryNames(ds)[j] != EntryNames(ds)[k];
      assert if j < k then Apart(ds[j], ds[k]) else Apart(ds[k], ds[j]);
    }
    assert forall j :: 0 <= j < |es| ==> FirstEntry(r, j) == FirstEntry(es, j) && r[j].name == es[j].name;
  }

  // Changing anything else of an entry keeps what it shares.
  lemma SharingKept(es: seq<Entry>, ds: seq<Entry>, own: set<string>, i: nat, e: Entry)
    requires Sharing(es, ds, own) && i < |es| && e.name == es[i].name && SameRefs(e, es[i])
    ensures Sharing(es[i := e], ds, own)
  {
    var r := es[i := e];
    assert forall j :: 0 <= j < |es| ==> r[j].name == es[j].name && SameRefs(r[j], es[j]) && FirstEntry(r, j) == FirstEntry(es, j);
  }

  lemma ImageSeenBy(es: seq<Entry>, ds: seq<Entry>, i: nat, k: nat, own: set<string>, dv: seq<Addon>)
    requires i < |es| && k < |ds| && es[i].name == ds[k].name && FirstEntry(es, i)
    requires Sharing(es, ds, own) && Holds(ds, dv) && Distinct(Names(dv))
    ensures forall j :: 0 <= j < |es| && j != i ==> Apart(es[i], es[j])
    ensures forall j :: 0 <= j < |ds| && j != k ==> Apart(es[i], ds[j])
    ensures if es[i].name in own then Apart(es[i], ds[k]) else SameRefs(es[i], ds[k])
  {
    SameLength(ds, dv);
    forall j | 0 <= j < |ds| && j != k
      ensures Apart(es[i], ds[j])
    {
      assert Names(dv)[j] != Names(dv)[k];
    }
  }

  lemma RefsAfterAppend(es: seq<Entry>, ds: seq<Entry>, user: seq<string>)
    ensures Refs(es + MissingEntries(ds, user)) <= Refs(es) + Refs(ds)
  {
    var m := MissingEntries(ds, user);
    forall i | 0 <= i < |m|
      ensures m[i].containers in Refs(ds) && m[i].config in Refs(ds)
    {
      var j :| 0 <= j < |ds| && ds[j] == m[i];
      RefsOfEntry(ds, j);
    }
  }

  // getAddonsIndexByName and GetComponentsIndexByName.
  method GetIndexByName(es: seq<Entry>, name: string, ghost vs: seq<Addon>) returns (i: int)
    requires Holds(es, vs)
    ensures i == IndexOf(Names(vs), name) && Holds(es, vs)
  {
    SameLength(es, vs);
    i := GetEntryIndex(es, name);
  }

  method GetEntryIndex(es: seq<Entry>, name: string) returns (i: int)
    ensures -1 <= i < |es| && (i >= 0 ==> es[i].name == name)
    ensures forall j :: 0 <= j < (if i < 0 then |es| else i) ==> es[j].name != name
  {
    i := 0;
    while i < |es|
      invariant 0 <= i <= |es| && forall j :: 0 <= j < i ==> es[j].name != name
    {
      if es[i].name == name {
        return i;
      }
      i := i + 1;
    }
    return -1;
  }

  function EntryNames(es: seq<Entry>): (names: seq<string>)
    ensures |names| == |es| && forall i :: 0 <= i < |es| ==> names[i] == es[i].name
  {
    seq(|es|, i requires 0 <= i < |es| => es[i].name)
  }

  method AppendIfNotPresent(es: seq<Entry>, ds: seq<Entry>) returns (r: seq<Entry>)
    requires Distinct(EntryNames(ds))
    ensures r == es + MissingEntries(ds, EntryNames(es))
  {
    hide MissingEntries, Distinct, EntryNames;
    r := es;
    ghost var names := EntryNames(es);
    assert MissingEntries(ds[..0], names) == [] by { NoEntries(names); }
    for k := 0 to |ds|
      invariant r == es + MissingEntries(ds[..k], names)
    {
      EntryMissing(ds, names, k);
      var i := GetEntryIndex(r, ds[k].name);
      PresentInUser(es, ds, k, r, i);
      if i < 0 {
        r := r + [ds[k]];
      }
    }
    assert ds[..|ds|] == ds;
  }

  lemma SameNames(es: seq<Entry>, vs: seq<Addon>)
    requires Holds(es, vs)
    ensures EntryNames(es) == Names(vs)
  {
    SameLength(es, vs);
  }

  lemma NoEntries(user: seq<string>)
    ensures MissingEntries([], user) == []
  {
  }

  lemma PresentInUser(es: seq<Entry>, ds: seq<Entry>, k: nat, r: seq<Entry>, i: int)
    requires k < |ds| && Distinct(EntryNames(ds)) && r == es + MissingEntries(ds[..k], EntryNames(es))
    requires -1 <= i < |r| && (i >= 0 ==> r[i].name == ds[k].name) && (i < 0 ==> forall j :: 0 <= j < |r| ==> r[j].name != ds[k].name)
    ensures i >= 0 <==> ds[k].name in EntryNames(es)
  {
    var m := MissingEntries(ds[..k], EntryNames(es));
    forall j | 0 <= j < |m|
      ensures m[j].name != ds[k].name
    {
      var n :| 0 <= n < k && ds[..k][n] == m[j];
      assert EntryNames(ds)[n] != EntryNames(ds)[k];
    }
    if 0 <= i < |es| {
      assert EntryNames(es)[i] == ds[k].name;
    }
    assert forall j :: 0 <= j < |es| ==> r[j] == es[j];
  }

  lemma {:induction false} HoldsListed(es: seq<Entry>, l: seq<Addon>, ds: seq<Entry>, d: seq<Addon>)
    requires Holds(es, l) && Holds(ds, d)
    ensures Holds(es + MissingEntries(ds, Names(l)), Listed(l, d))
  {
    hide Entry.Value;
    if ds == [] {
      assert es + [] == es && l + [] == l;
    } else {
      var n := |ds| - 1;
      assert ds[n].Value() == d[n];
      SameLength(ds, d);
      HoldsListed(es, l, ds[..n], d[..n]);
      if ds[n].name in Names(l) {
        assert MissingEntries(ds, Names(l)) == MissingEntries(ds[..n], Names(l));
        assert MissingAddons(d, Names(l)) == MissingAddons(d[..n], Names(l));
      } else {
        assert es + MissingEntries(ds, Names(l)) == es + MissingEntries(ds[..n], Names(l)) + [ds[n]];
        assert Listed(l, d) == Listed(l, d[..n]) + [d[n]];
        HoldsOneMore(es + MissingEntries(ds[..n], Names(l)), Listed(l, d[..n]), ds, d, n);
      }
    }
  }

  class KubernetesConfig {
    var entries: seq<Entry>

    // addons[i] = assignDefaultAddonVals(addons[i], addon, isUpgrade)
    method AssignAt(i: nat, ds: seq<Entry>, k: nat, component: bool, isUpgrade: bool, ghost l: seq<Addon>, ghost d: seq<Addon>)
      requires i < |entries| && k < |ds| && entries[i].name == ds[k].name
      requires Holds(entries, l) && Holds(ds, d) && WellFormed(d)
      requires AllApart(entries) && AllApart(ds) && Tied(entries, ds)
      modifies this, Refs(entries)
      ensures Holds(ds, d) && Holds(entries, l[i := Assign(l[i], d[k], component, isUpgrade)])
      ensures AllApart(entries) && Tied(entries, ds)
      ensures forall o :: o in Refs(entries) ==> o == null || o in old(Refs(entries)) || fresh(o)
    {
      hide Assign, Names, Refs, WellFormed, AllApart, Tied, Distinct, Items, Conf;
      var es := entries;
      RefsOfEntry(entries, i);
      WritesApart(es, ds, i, k, d);
      var r := AssignDefaultVals(es[i], ds[k], component, isUpgrade);
      assert forall j :: 0 <= j < |es| && j != i ==> es[j].Value() == l[j];
      assert forall j :: 0 <= j < |ds| && j != k ==> ds[j].Value() == d[j];
      RefsReplaced(es, i, r);
      ApartReplaced(es, ds, i, r);
      entries := es[i := r];
    }

    // synthesizeAddonsConfig and synthesizeComponentsConfig for every default.
    method Synthesize(ds: seq<Entry>, component: bool, isUpgrade: bool, ghost l: seq<Addon>, ghost d: seq<Addon>)
      requires Holds(entries, l) && Holds(ds, d) && WellFormed(d)
      requires AllApart(entries) && AllApart(ds) && Tied(entries, ds)
      modifies this, Refs(entries)
      ensures Holds(ds, d) && Holds(entries, Assigned(l, d, component, isUpgrade))
      ensures forall o :: o in Refs(entries) ==> o == null || o in old(Refs(entries)) || fresh(o)
    {
      hide Assign, Assigned, Names, AllApart, Tied, Refs, Entry.Value, Distinct, IndexOf, AssignedOne;
      AssignedNone(l, d, component, isUpgrade);
      SameLength(ds, d);
      for k := 0 to |ds|
        invariant Holds(entries, Assigned(l, d[..k], component, isUpgrade)) && Holds(ds, d)
        invariant AllApart(entries) && Tied(entries, ds)
        invariant forall o :: o in Refs(entries) ==> o == null || o in old(Refs(entries)) || fresh(o)
      {
        AssignedStep(l, d, component, isUpgrade, k);
        var i := GetIndexByName(entries, ds[k].name, Assigned(l, d[..k], component, isUpgrade));
        SameLength(entries, Assigned(l, d[..k], component, isUpgrade));
        OneAt(Assigned(l, d[..k], component, isUpgrade), d[k], component, isUpgrade);
        if i >= 0 {
          AssignAt(i, ds, k, component, isUpgrade, Assigned(l, d[..k], component, isUpgrade), d);
        }
      }
      assert d[..|d|] == d;
    }

    // appendAddonIfNotPresent and appendComponentIfNotPresent for every default.
    method AppendMissing(ds: seq<Entry>, ghost l: seq<Addon>, ghost d: seq<Addon>)
      requires Holds(entries, l) && Holds(ds, d) && Distinct(Names(d))
      modifies this
      ensures entries == old(entries) + MissingEntries(ds, Names(l)) && Holds(entries, Listed(l, d))
      ensures Holds(ds, d)
    {
      hide Names, EntryNames, Listed, MissingEntries, Distinct;
      SameNames(ds, d);
      SameNames(entries, l);
      HoldsListed(entries, l, ds, d);
      entries := AppendIfNotPresent(entries, ds);
    }

    // Containers[0].Image = image, which the default sees if it shares the array.
    method WriteImage(i: nat, ds: seq<Entry>, k: nat, image: string, ghost own: set<string>, ghost vs: seq<Addon>, ghost dv: seq<Addon>)
      requires i < |entries| && k < |ds| && entries[i].name == ds[k].name && FirstEntry(entries, i)
      requires Holds(entries, vs) && Holds(ds, dv) && Distinct(Names(dv)) && vs[i].containers != []
      requires Sharing(entries, ds, own)
      modifies Refs(entries)
      ensures entries == old(entries)
      ensures Holds(entries, vs[i := WithImage(vs[i], image)])
      ensures Holds(ds, if ds[k].name in own then dv else dv[k := WithImage(dv[k], image)])
    {
      hide Refs, Names, Distinct, Sharing, FirstEntry;
      var es := entries;
      RefsOfEntry(es, i);
      ImageSeenBy(es, ds, i, k, own, dv);
      var a := es[i].containers;
      assert es[i].Value() == vs[i] && ds[k].Value() == dv[k];
      a.items := a.items[0 := a.items[0].(image := image)];
      assert forall j :: 0 <= j < |es| && j != i ==> es[j].Value() == vs[j];
      assert forall j :: 0 <= j < |ds| && j != k ==> ds[j].Value() == dv[j];
    }

    // The loop that honors the custom images; it crashes when a slice has no element 0.
    method HonorImages(ds: seq<Entry>, images: map<string, string>, ghost own: set<string>, ghost all: seq<Addon>,
                       ghost d: seq<Addon>)
      returns (ok: bool)
      requires Holds(entries, all) && Holds(ds, d) && Distinct(Names(d))
      requires forall name :: name in Names(d) ==> IndexOf(Names(all), name) >= 0
      requires Sharing(entries, ds, own)
      modifies Refs(entries)
      ensures entries == old(entries)
      ensures ok <==> ImagesFit(all, d, images)
      ensures ok ==> Holds(entries, Imaged(all, d, images)) && Holds(ds, ImagedDefaults(d, own, images))
    {
      hide Names, IndexOf, Distinct, Sharing, Imaged, ImagedSoFar, ImagesFit, WithImage, Refs, ImageFor;
      SameLength(ds, d);
      ImagedNone(all, d, images);
      ImagedDefaultsEnds(d, own, images);
      for k := 0 to |ds|
        invariant Holds(entries, Imaged(all, d[..k], images)) && Holds(ds, ImagedSoFar(d, own, images, k))
        invariant entries == old(entries) && ImagesFit(all, d[..k], images)
      {
        ghost var vs, dv := Imaged(all, d[..k], images), ImagedSoFar(d, own, images, k);
        ImagedStep(all, d, images, k);
        ImagedDefaultsStep(d, own, images, k);
        ImagedSoFarNames(d, own, images, k);
        ImagedNames(all, d[..k], images);
        assert Names(d)[k] in Names(d);
        SameLength(entries, vs);
        var i := GetIndexByName(entries, ds[k].name, vs);
        var image := ImageFor(images, ds[k].name);
        if image != "" {
          if |Items(entries[i].containers)| == 0 {
            NoFit(all, d, k, images);
            return false;
          }
          WriteImage(i, ds, k, image, own, vs, dv);
        }
      }
      assert d[..|d|] == d;
      ok := true;
    }

    // entries[i] = default, for the first entry of the name, unless it need not be replaced.
    method ReplaceByDefault(name: string, always: bool, ds: seq<Entry>, ghost own: set<string>, ghost vs: seq<Addon>,
                            ghost dv: seq<Addon>)
      requires Holds(entries, vs) && Holds(ds, dv) && Distinct(Names(dv)) && Sharing(entries, ds, own)
      modifies this
      ensures Holds(entries, ReplacedOne(vs, dv, name, always)) && Holds(ds, dv)
      ensures Sharing(entries, ds, OwnAfter(own, vs, dv, name, always))
      ensures Refs(entries) <= old(Refs(entries)) + Refs(ds)
    {
      hide Names, IndexOf, Distinct, Sharing, Refs;
      ghost var es := entries;
      SameLength(es, vs);
      SameNames(ds, dv);
      var i := GetIndexByName(entries, name, vs);
      var k := GetIndexByName(ds, name, dv);
      if i >= 0 && k >= 0 && (always || entries[i].enabled != Some(true)) {
        SharingReplaced(es, ds, own, i, k);
        RefsReplaced(es, i, ds[k]);
        RefsOfEntry(ds, k);
        assert ds[k].Value() == dv[k];
        entries := entries[i := ds[k]];
      }
    }

    // On upgrade: every addon of the given names that is listed but not enabled is replaced
    // by its default, in any order.
    method EnsureEnabled(names: set<string>, ds: seq<Entry>, ghost l: seq<Addon>, ghost d: seq<Addon>)
      requires Holds(entries, Listed(l, d)) && Holds(ds, d) && Distinct(Names(d)) && Sharing(entries, ds, Own(l, d, {}, {}))
      modifies this
      ensures Holds(entries, Replaced(Listed(l, d), d, names, {})) && Holds(ds, d)
      ensures Sharing(entries, ds, Own(l, d, names, {}))
      ensures Refs(entries) <= old(Refs(entries)) + Refs(ds)
    {
      hide Names, IndexOf, Distinct, Sharing, Refs, Replaced, Own, Listed, Holds, OwnAfter, ReplacedOne;
      ghost var all := Listed(l, d);
      var todo := names;
      ReplacedNone(all, d);
      assert names - todo == {};
      while todo != {}
        invariant todo <= names && Holds(entries, Replaced(all, d, names - todo, {})) && Holds(ds, d)
        invariant Sharing(entries, ds, Own(l, d, names - todo, {}))
        invariant Refs(entries) <= old(Refs(entries)) + Refs(ds)
        decreases |todo|
      {
        var name :| name in todo;
        EnsureStep(all, d, names - todo, name);
        OwnEnsured(l, d, names - todo, name);
        assert names - (todo - {name}) == names - todo + {name};
        ReplaceByDefault(name, false, ds, Own(l, d, names - todo, {}), Replaced(all, d, names - todo, {}), d);
        todo := todo - {name};
      }
      assert names - todo == names;
    }

    // Both replacements of addons on upgrade.
    method ReplaceOnUpgrade(ds: seq<Entry>, mode: Mode, ghost l: seq<Addon>, ghost d: seq<Addon>)
      requires Holds(entries, Listed(l, d)) && Holds(ds, d) && Distinct(Names(d)) && Sharing(entries, ds, Own(l, d, {}, {}))
      requires !mode.component
      modifies this
      ensures Holds(entries, Replaced(Listed(l, d), d, mode.Ensured(), mode.Replacing())) && Holds(ds, d)
      ensures Sharing(entries, ds, Own(l, d, mode.Ensured(), mode.Replacing()))
      ensures Refs(entries) <= old(Refs(entries)) + Refs(ds)
    {
      hide Names, IndexOf, Distinct, Sharing, Refs, Replaced, Own, Listed, Holds, OwnAfter, ReplacedOne;
      EnsureEnabled(mode.Ensured(), ds, l, d);
      if mode.isUpgrade && mode.stackWithCcm {
        ForceStep(Listed(l, d), d, mode.Ensured(), NODE_MANAGER);
        OwnForced(l, d, mode.Ensured(), NODE_MANAGER);
        ReplaceByDefault(NODE_MANAGER, true, ds, Own(l, d, mode.Ensured(), {}), Replaced(Listed(l, d), d, mode.Ensured(), {}), d);
      }
    }

    // The deprecated network monitor is turned off on upgrade.
    method TurnMonitorOff(ds: seq<Entry>, isUpgrade: bool, ghost own: set<string>, ghost vs: seq<Addon>, ghost dv: seq<Addon>)
      requires Holds(entries, vs) && Holds(ds, dv) && Sharing(entries, ds, own)
      modifies this
      ensures Holds(entries, MonitorOff(vs, isUpgrade)) && Holds(ds, dv)
      ensures Sharing(entries, ds, own)
      ensures Refs(entries) <= old(Refs(entries))
    {
      hide Names, IndexOf, Sharing, Refs;
      if isUpgrade {
        ghost var es := entries;
        var i := GetIndexByName(entries, NETWORK_MONITOR, vs);
        if i >= 0 {
          ghost var e := es[i].(enabled := Some(false));
          SharingKept(es, ds, own, i, e);
          RefsReplaced(es, i, e);
          RefsOfEntry(es, i);
          assert es[i].Value() == vs[i];
          entries := entries[i := entries[i].(enabled := Some(false))];
        }
      }
    }

    // setAddonsConfig and setComponentsConfig up to the synthesis; not ok means a crash.
    method SetDefaults(ds: seq<Entry>, images: map<string, string>, mode: Mode, ghost l: seq<Addon>, ghost d: seq<Addon>)
      returns (ok: bool)
      requires Holds(entries, l) && Holds(ds, d) && WellFormed(d) && NoLimits(d)
      requires AllApart(entries) && AllApart(ds)
      requires forall i, k :: 0 <= i < |entries| && 0 <= k < |ds| ==> Apart(entries[i], ds[k])
      modifies this, Refs(entries), Refs(ds)
      ensures ok <==> ImagesFit(Prepared(l, d, mode), d, images)
      ensures ok ==> Holds(entries, Final(l, d, images, mode))
    {
      hide Names, Listed, Imaged, ImagedDefaults, Assigned, MissingEntries, Holds, Refs, Sharing, ImagesFit, IndexOf, Replaced,
        Own, MonitorOff, OwnAfter, ReplacedOne, Converted, NoLimits;
      SharingAfterAppend(entries, ds, l, d);
      RefsAfterAppend(entries, ds, Names(l));
      AppendMissing(ds, l, d);
      if !mode.component {
        ReplaceOnUpgrade(ds, mode, l, d);
        if mode.isUpgrade {
          ConvertAutoscaler(mode.profiles, ds, OwnNames(l, d, mode), Replaced(Listed(l, d), d, mode.Ensured(), mode.Replacing()), d);
        }
        TurnMonitorOff(ds, mode.isUpgrade, OwnNames(l, d, mode), Upgraded(l, d, mode), d);
      }
      AllListed(l, d, mode);
      ok := HonorImages(ds, images, OwnNames(l, d, mode), Prepared(l, d, mode), d);
      if ok {
        FillIn(ds, images, mode, l, d);
      }
    }

    // Components are replaced after the images were written; then the defaults are filled in.
    method FillIn(ds: seq<Entry>, images: map<string, string>, mode: Mode, ghost l: seq<Addon>, ghost d: seq<Addon>)
      requires Holds(entries, Imaged(Prepared(l, d, mode), d, images)) && WellFormed(d)
      requires Holds(ds, ImagedDefaults(d, OwnNames(l, d, mode), images)) && Sharing(entries, ds, OwnNames(l, d, mode))
      modifies this, Refs(entries), Refs(ds)
      ensures Holds(entries, Final(l, d, images, mode))
    {
      hide Names, Imaged, Prepared, OwnNames, ImagedDefaults, Assigned, Holds, Refs, IndexOf, Replaced, OwnAfter, ReplacedOne,
        AllApart, Tied, Layout;
      ghost var own, defaults := OwnNames(l, d, mode), ImagedDefaults(d, OwnNames(l, d, mode), images);
      ghost var imaged := Imaged(Prepared(l, d, mode), d, images);
      ImagesKeepForm(d, own, images);
      ReplacedNone(imaged, defaults);
      if mode.component && mode.isUpgrade && mode.stackWithCcm {
        ForceStep(imaged, defaults, {}, CLOUD_MANAGER);
        ReplaceByDefault(CLOUD_MANAGER, true, ds, own, imaged, defaults);
      }
      Synthesize(ds, mode.component, mode.isUpgrade, Ready(l, d, images, mode), defaults);
    }

    // The limit named by the key, moved out of the first entry's configuration.
    method TakeLimit(key: string, count: string, ds: seq<Entry>, ghost own: set<string>, ghost vs: seq<Addon>, ghost dv: seq<Addon>)
      returns (limit: string)
      requires key in {MIN_NODES, MAX_NODES}
      requires entries != [] && Holds(entries, vs) && Sharing(entries, ds, own) && (NoLimits(dv) ==> Holds(ds, dv))
      modifies Refs(entries)
      ensures limit == Or(Limit(vs[0].config, key), count)
      ensures entries == old(entries) && Holds(entries, vs[0 := Without(vs[0], key)])
      ensures NoLimits(dv) ==> Holds(ds, dv)
    {
      hide Refs, Sharing;
      var config := entries[0].config;
      RefsOfEntry(entries, 0);
      assert entries[0].Value() == vs[0];
      limit := count;
      if config != null && key in config.entries && config.entries[key] != "" {
        limit := config.entries[key];
        FirstSharesNothing(entries, ds, own, vs, dv, key);
        config.entries := config.entries - {key};
        assert forall j :: 0 < j < |entries| ==> entries[j].Value() == vs[j];
        assert NoLimits(dv) ==> forall j :: 0 <= j < |ds| ==> ds[j].Value() == dv[j];
      }
    }

    // The pools of an enabled autoscaler that has none.
    method ConvertAutoscaler(profiles: seq<Profile>, ds: seq<Entry>, ghost own: set<string>, ghost vs: seq<Addon>, ghost dv: seq<Addon>)
      requires Holds(entries, vs) && Sharing(entries, ds, own) && (NoLimits(dv) ==> Holds(ds, dv))
      modifies this, Refs(entries)
      ensures Holds(entries, Converted(vs, profiles)) && Sharing(entries, ds, own)
      ensures NoLimits(dv) ==> Holds(ds, dv)
      ensures Refs(entries) <= old(Refs(entries))
    {
      hide Names, IndexOf, Refs, Sharing, Without, Limit, NoLimits, Converted;
      SameLength(entries, vs);
      var a := GetIndexByName(entries, AUTOSCALER, vs);
      if a >= 0 {
        SetPools(entries, vs, a, []);
      }
      if a >= 0 && entries[a].enabled == Some(true) && entries[a].pools == [] {
        ghost var es := entries;
        var pools := MovePools(profiles, ds, own, vs, dv);
        ghost var now := if profiles == [] then vs else vs[0 := Without(Without(vs[0], MIN_NODES), MAX_NODES)];
        SetPools(entries, now, a, pools);
        assert entries[a].(pools := pools) == es[a].(pools := pools);
        ConvertedHere(vs, profiles, a, now);
        SharingKept(es, ds, own, a, es[a].(pools := pools));
        RefsReplaced(es, a, es[a].(pools := pools));
        RefsOfEntry(es, a);
        entries := entries[a := entries[a].(pools := pools)];
      } else {
        NotConverted(vs, profiles);
      }
    }

    // One pool for each profile, the first one with the limits of the first entry.
    method MovePools(profiles: seq<Profile>, ds: seq<Entry>, ghost own: set<string>, ghost vs: seq<Addon>, ghost dv: seq<Addon>)
      returns (pools: seq<Pool>)
      requires entries != [] && Holds(entries, vs) && Sharing(entries, ds, own) && (NoLimits(dv) ==> Holds(ds, dv))
      modifies Refs(entries)
      ensures entries == old(entries) && pools == PoolsOf(profiles, vs[0].config)
      ensures Holds(entries, if profiles == [] then vs else vs[0 := Without(Without(vs[0], MIN_NODES), MAX_NODES)])
      ensures NoLimits(dv) ==> Holds(ds, dv)
    {
      hide Refs, Sharing, Without, Limit, NoLimits, Entry.Value;
      ghost var now := vs;
      pools := [];
      for i := 0 to |profiles|
        invariant entries == old(entries) && Holds(entries, now)
        invariant NoLimits(dv) ==> Holds(ds, dv)
        invariant now == if i == 0 then vs else vs[0 := Without(Without(vs[0], MIN_NODES), MAX_NODES)]
        invariant pools == PoolsOf(profiles[..i], vs[0].config)
      {
        var count := profiles[i].count;
        var least, most := count, count;
        if i == 0 {
          // The index of the profile, not the one of the autoscaler.
          least := TakeLimit(MIN_NODES, count, ds, own, now, dv);
          now := now[0 := Without(vs[0], MIN_NODES)];
          most := TakeLimit(MAX_NODES, count, ds, own, now, dv);
          now := now[0 := Without(Without(vs[0], MIN_NODES), MAX_NODES)];
          OtherLimit(vs[0]);
        }
        pools := pools + [Pool(profiles[i].name, map[MIN_NODES := least, MAX_NODES := most])];
        OnePoolMore(profiles, vs[0].config, i);
      }
      assert profiles[..|profiles|] == profiles;
    }

    // The steps up to the one that migrates a cluster without coredns, which would use index
    // -1; that step is never taken once the defaults were appended.
    method MigrateDns(ds: seq<Entry>, mode: Mode, since112: bool, ghost l: seq<Addon>, ghost d: seq<Addon>)
      requires Holds(entries, l) && Holds(ds, d) && WellFormed(d) && CORE_DNS in Names(d) && !mode.component
      requires AllApart(entries) && AllApart(ds)
      requires forall i, k :: 0 <= i < |entries| && 0 <= k < |ds| ==> Apart(entries[i], ds[k])
      modifies this, Refs(entries), Refs(ds)
      ensures Holds(entries, Upgraded(l, d, mode)) && CORE_DNS in EntryNames(entries)
    {
      hide Names, Listed, MissingEntries, Holds, Refs, Sharing, IndexOf, Replaced, Own, Converted, OwnAfter, ReplacedOne;
      SharingAfterAppend(entries, ds, l, d);
      RefsAfterAppend(entries, ds, Names(l));
      AppendMissing(ds, l, d);
      ReplaceOnUpgrade(ds, mode, l, d);
      if mode.isUpgrade {
        ConvertAutoscaler(mode.profiles, ds, OwnNames(l, d, mode), Replaced(Listed(l, d), d, mode.Ensured(), mode.Replacing()), d);
      }
      UpgradedNames(l, d, mode);
      UserFirst(l, d, CORE_DNS);
      SameNames(entries, Upgraded(l, d, mode));
      if mode.isUpgrade && since112 {
        var i := GetIndexByName(entries, CORE_DNS, Upgraded(l, d, mode));
        if i == -1 {
          assert false;
        }
      }
    }
  }

  // Unless the defaults bind the limit, a first entry that does shares its map with no other.
  lemma FirstSharesNothing(es: seq<Entry>, ds: seq<Entry>, own: set<string>, vs: seq<Addon>, dv: seq<Addon>, key: string)
    requires es != [] && Holds(es, vs) && Sharing(es, ds, own) && (NoLimits(dv) ==> Holds(ds, dv))
    requires key in {MIN_NODES, MAX_NODES} && Limit(vs[0].config, key) != ""
    ensures forall j :: 0 < j < |es| ==> Apart(es[0], es[j])
    ensures NoLimits(dv) ==> forall k :: 0 <= k < |ds| ==> es[0].config != ds[k].config
  {
    assert es[0].Value() == vs[0];
    assert FirstEntry(es, 0);
    forall k | 0 <= k < |ds| && NoLimits(dv)
      ensures es[0].config != ds[k].config
    {
      assert ds[k].Value() == dv[k];
    }
  }

  lemma ConvertedHere(vs: seq<Addon>, ps: seq<Profile>, a: nat, now: seq<Addon>)
    requires a == IndexOf(Names(vs), AUTOSCALER) && vs[a].enabled == Some(true) && vs[a].pools == []
    requires now == if ps == [] then vs else vs[0 := Without(Without(vs[0], MIN_NODES), MAX_NODES)]
    ensures Converted(vs, ps) == now[a := now[a].(pools := PoolsOf(ps, vs[0].config))]
  {
    hide Names, IndexOf, Without;
  }

  lemma NotConverted(vs: seq<Addon>, ps: seq<Profile>)
    requires !Converts(vs, ps)
    ensures Converted(vs, ps) == vs
  {
  }

  lemma OtherLimit(a: Addon)
    ensures Limit(Without(a, MIN_NODES).config, MAX_NODES) == Limit(a.config, MAX_NODES)
  {
    DifferentLimits();
  }

  lemma OnePoolMore(ps: seq<Profile>, config: map<string, string>, i: nat)
    requires i < |ps|
    ensures PoolsOf(ps[..i + 1], config) == PoolsOf(ps[..i], config) + [PoolOf(ps[i], if i == 0 then config else map[])]
    ensures Limit(map[], MIN_NODES) == "" && Limit(map[], MAX_NODES) == ""
  {
  }

  lemma SetPools(es: seq<Entry>, vs: seq<Addon>, a: nat, pools: seq<Pool>)
    requires Holds(es, vs) && a < |es|
    ensures es[a].enabled == vs[a].enabled && es[a].pools == vs[a].pools
    ensures Holds(es[a := es[a].(pools := pools)], vs[a := vs[a].(pools := pools)])
  {
    assert es[a].Value() == vs[a];
  }

  lemma AllListed(l: seq<Addon>, d: seq<Addon>, mode: Mode)
    ensures forall name :: name in Names(d) ==> IndexOf(Names(Prepared(l, d, mode)), name) >= 0
  {
    hide Names, IndexOf, Prepared;
    PreparedNames(l, d, mode);
    forall name | name in Names(d)
      ensures IndexOf(Names(Prepared(l, d, mode)), name) >= 0
    {
      UserFirst(l, d, name);
    }
  }
}
