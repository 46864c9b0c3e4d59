// Filling in the defaults of pkg/api/addons.go and pkg/api/components.go a second time, as
// every later operation on a saved cluster does.
module SecondPass {

  import opened Options
  import opened Reconcile

  // ---- Containers ----

  // Another image in container 0 shows in container 0 only.
  lemma MergeImage(cs: seq<Container>, ds: seq<Container>, isUpgrade: bool, image: string)
    requires cs != []
    ensures Merged(cs[0 := cs[0].(image := image)], ds, isUpgrade)
         == Merged(cs, ds, isUpgrade)[0 := FilledFirst(cs[0].(image := image), ds, isUpgrade)]
  {
    hide Merged, IndexOf, MissingContainers, Fill;
    var other := cs[0 := cs[0].(image := image)];
    assert ContainerNames(other) == ContainerNames(cs);
    MergedTail(cs, ds, isUpgrade);
    MergedTail(other, ds, isUpgrade);
    FirstOfAll(cs);
    var r, s := Merged(cs, ds, isUpgrade), Merged(other, ds, isUpgrade);
    forall i | 0 <= i < |cs|
      ensures s[i] == r[0 := FilledFirst(other[0], ds, isUpgrade)][i]
    {
      assert s[i] == Filled(other, ds, isUpgrade, i) && r[i] == Filled(cs, ds, isUpgrade, i);
    }
    assert r == r[..|cs|] + r[|cs|..] && s == s[..|cs|] + s[|cs|..];
    assert s[..|cs|] == r[..|cs|][0 := FilledFirst(other[0], ds, isUpgrade)];
  }

  lemma FirstOfAll(cs: seq<Container>)
    requires cs != []
    ensures IndexOf(ContainerNames(cs), cs[0].name) == 0
  {
    assert ContainerNames(cs)[0] == cs[0].name;
  }

  // What filling in makes of container 0.
  function FilledFirst(c: Container, ds: seq<Container>, isUpgrade: bool): Container {
    var k := IndexOf(ContainerNames(ds), c.name);
    if k < 0 then c else Fill(c, ds[k], isUpgrade)
  }

  lemma FirstMerged(cs: seq<Container>, ds: seq<Container>, isUpgrade: bool)
    requires cs != []
    ensures Merged(cs, ds, isUpgrade) != [] && Merged(cs, ds, isUpgrade)[0] == FilledFirst(cs[0], ds, isUpgrade)
  {
    hide Merged, Fill;
    FirstFilled(cs, ds, isUpgrade);
  }

  // The image that ends up in container 0 when this one is written into it.
  function ImageLeft(c: Container, ds: seq<Container>, isUpgrade: bool, image: string): string {
    if isUpgrade then DefaultImage([c], ds, image) else image
  }

  // Filling in containers that are filled in already, after the image was written again.
  lemma MergeAgain(cs: seq<Container>, ds: seq<Container>, isUpgrade: bool, image: string)
    requires cs != [] && image != "" && Merged(cs, ds, isUpgrade) == cs
    ensures Merged(cs[0 := cs[0].(image := image)], ds, isUpgrade) == cs
       <==> cs[0].image == ImageLeft(cs[0], ds, isUpgrade, image)
  {
    hide Merged, IndexOf;
    MergeImage(cs, ds, isUpgrade, image);
    FirstMerged(cs, ds, isUpgrade);
    var c := FilledFirst(cs[0].(image := image), ds, isUpgrade);
    assert cs[0 := c] == cs <==> c == cs[0];
  }

  // The same for containers of the defaults into which the image was written before.
  lemma MergeShared(ds: seq<Container>, isUpgrade: bool, image: string)
    requires ds != [] && image != "" && Distinct(ContainerNames(ds))
    ensures var cs := ds[0 := ds[0].(image := image)];
            && Merged(cs, cs, isUpgrade) == cs
            && cs[0 := cs[0].(image := image)] == cs
            && (Merged(cs, ds, isUpgrade) == cs <==> cs[0].image == ImageLeft(cs[0], ds, isUpgrade, image))
  {
    hide Merged, IndexOf;
    var cs := ds[0 := ds[0].(image := image)];
    assert ContainerNames(cs) == ContainerNames(ds);
    assert ds[..|ds|] == ds && cs[..|cs|] == cs;
    MergeSelf(cs, |cs|, isUpgrade);
    MergeSelf(ds, |ds|, isUpgrade);
    MergeImage(ds, ds, isUpgrade, image);
    FirstOfAll(ds);
    var c := FilledFirst(ds[0].(image := image), ds, isUpgrade);
    assert ds[0 := c] == cs <==> c == cs[0];
  }

  // ---- One entry ----

  // The entry x was filled in from d1, which is the default d up to its image.  The image is
  // empty unless one is written in both passes.
  ghost predicate FirstPass(x: Addon, d1: Addon, d: Addon, image: string) {
    || (d1 == d && (image != "" ==> x.containers != [] && x.containers[0].image == image))
    || (image != "" && d.containers != [] && d1 == WithImage(d, image) && x.containers == d1.containers)
  }

  // What the second pass does to an entry before it fills it in.
  ghost predicate Between(once: Addon, r: Addon, image: string, moved: bool, pooled: bool) {
    && r.name == once.name && r.enabled == once.enabled && r.mode == once.mode && r.data == once.data
    && r.containers == (if image != "" then WithImage(once, image).containers else once.containers)
    && r.config == (if moved then WithoutLimits(once).config else once.config)
    && (if pooled then once.pools == [] && r.pools != [] else r.pools == once.pools)
  }

  predicate HasLimits(a: Addon) {
    Limit(a.config, MIN_NODES) != "" || Limit(a.config, MAX_NODES) != ""
  }

  // An image that was written stays what it is when it is written again.
  predicate Stays(once: Addon, d: Addon, isUpgrade: bool, image: string) {
    image != "" && once.containers != [] ==>
      once.containers[0].image == ImageLeft(once.containers[0], d.containers, isUpgrade, image)
  }

  // An entry that is off, or has raw data, has nothing else.
  lemma BlankAgain(x: Addon, d1: Addon, r: Addon, d: Addon, component: bool, isUpgrade: bool)
    requires var once := Assign(x, d1, component, isUpgrade);
             && (once.enabled != Some(true) || once.data != "")
             && r.name == once.name && r.data == once.data && d1.enabled == d.enabled
             && (r.enabled == once.enabled || (r.enabled == Some(false) && once.enabled == Some(false)))
    ensures Assign(r, d, component, isUpgrade) == Assign(x, d1, component, isUpgrade)
    ensures Assign(x, d1, component, isUpgrade).containers == []
    ensures !HasLimits(Assign(x, d1, component, isUpgrade))
  {
    hide Merged, FilledConfig;
  }

  lemma ContainersAgain(x: Addon, d1: Addon, d: Addon, image: string, isUpgrade: bool)
    requires FirstPass(x, d1, d, image) && Distinct(ContainerNames(d.containers))
    ensures var cs := Merged(x.containers, d1.containers, isUpgrade);
            var again := if image != "" && cs != [] then cs[0 := cs[0].(image := image)] else cs;
            Merged(again, d.containers, isUpgrade) == cs
            <==> (image != "" && cs != [] ==> cs[0].image == ImageLeft(cs[0], d.containers, isUpgrade, image))
  {
    hide Merged, ImageLeft, IndexOf;
    var cs := Merged(x.containers, d1.containers, isUpgrade);
    if d1 == d {
      MergeTwice(x.containers, d.containers, isUpgrade);
      if image != "" && cs != [] {
        MergeAgain(cs, d.containers, isUpgrade, image);
      }
    } else {
      MergeShared(d.containers, isUpgrade, image);
    }
  }

  // Without an upgrade, the image that was written is the one that is there.
  lemma ImageIsLeft(x: Addon, d1: Addon, d: Addon, image: string)
    requires FirstPass(x, d1, d, image) && Distinct(ContainerNames(d.containers))
    ensures var cs := Merged(x.containers, d1.containers, false);
            image != "" ==> cs != [] && cs[0].image == image
  {
    hide Merged, IndexOf;
    if image != "" {
      FirstMerged(x.containers, d1.containers, false);
    }
  }

  lemma ConfigAgain(config: map<string, string>, d: map<string, string>, forced: set<string>, moved: bool, once: Addon)
    requires Limit(d, MIN_NODES) == "" && Limit(d, MAX_NODES) == "" && forced <= {"command"}
    requires once.config == FilledConfig(config, d, forced)
    ensures FilledConfig(if moved then WithoutLimits(once).config else once.config, d, forced) == once.config
       <==> !(moved && HasLimits(once))
  {
    hide FilledConfig;
    FillConfigTwice(config, d, forced);
    if moved && HasLimits(once) {
      LimitsAlone(once);
      LimitFilled(WithoutLimits(once).config, d, forced, MIN_NODES);
      LimitFilled(WithoutLimits(once).config, d, forced, MAX_NODES);
    } else if moved {
      assert WithoutLimits(once) == once;
    }
  }

  lemma LimitFilled(config: map<string, string>, d: map<string, string>, forced: set<string>, key: string)
    requires key in {MIN_NODES, MAX_NODES} && Limit(d, key) == "" && forced <= {"command"}
    ensures Limit(FilledConfig(config, d, forced), key) == Limit(config, key)
  {
    assert |MIN_NODES| == |MAX_NODES| == 9 && |"command"| == 7;
  }

  lemma AssignFields(a: Addon, d: Addon, component: bool, isUpgrade: bool)
    requires Assign(a, d, component, isUpgrade).enabled == Some(true) && a.data == ""
    ensures Assign(a, d, component, isUpgrade)
         == Addon(a.name, Some(true), Or(a.mode, d.mode), Merged(a.containers, d.containers, isUpgrade),
                  FilledConfig(a.config, d.config, Forced(component, isUpgrade)), if a.pools == [] then d.pools else a.pools, "")
  {
    hide Merged, FilledConfig;
  }

  // Filling in an entry again gives it back, exactly unless its image, its limits or its pools
  // are no longer what they were.
  lemma AssignAgain(x: Addon, d1: Addon, d: Addon, r: Addon, image: string, mode: Mode, moved: bool, pooled: bool)
    requires FirstPass(x, d1, d, image) && Distinct(ContainerNames(d.containers))
    requires Limit(d.config, MIN_NODES) == "" && Limit(d.config, MAX_NODES) == ""
    requires Assign(x, d1, mode.component, mode.isUpgrade).enabled == Some(true)
    requires Assign(x, d1, mode.component, mode.isUpgrade).data == ""
    requires Between(Assign(x, d1, mode.component, mode.isUpgrade), r, image, moved, pooled)
    ensures var once := Assign(x, d1, mode.component, mode.isUpgrade);
            Assign(r, d, mode.component, mode.isUpgrade) == once
            <==> Stays(once, d, mode.isUpgrade, image) && !(moved && HasLimits(once)) && !pooled
  {
    hide Merged, FilledConfig, Assign, ImageLeft, WithoutLimits, HasLimits, Limit;
    var once := Assign(x, d1, mode.component, mode.isUpgrade);
    AssignData(x, d1, mode.component, mode.isUpgrade);
    AssignFields(x, d1, mode.component, mode.isUpgrade);
    AssignEnables(r, d, mode.component, mode.isUpgrade);
    AssignFields(r, d, mode.component, mode.isUpgrade);
    ContainersAgain(x, d1, d, image, mode.isUpgrade);
    ConfigAgain(x.config, d.config, Forced(mode.component, mode.isUpgrade), moved, once);
  }

  // ---- The list ----

  // Everything that has a default is listed after the first pass.
  lemma AllThere(l: seq<Addon>, d: seq<Addon>, images: map<string, string>, mode: Mode)
    ensures var once := Final(l, d, images, mode);
            Names(once) == Names(Listed(l, d)) && Listed(once, d) == once
  {
    hide Names, Final, Listed;
    var once := Final(l, d, images, mode);
    FinalNames(l, d, images, mode);
    FinalNamesListed(l, d, images, mode);
    forall i | 0 <= i < |d|
      ensures d[i].name in Names(once)
    {
      assert Names(d)[i] in Names(d);
    }
    NoneMissing(d, Names(once));
    NothingListed(once, d);
  }

  lemma NothingListed(l: seq<Addon>, d: seq<Addon>)
    requires MissingAddons(d, Names(l)) == []
    ensures Listed(l, d) == l
  {
  }

  function DefaultOf(l: seq<Addon>, d: seq<Addon>, i: nat): Addon
    requires i < |l| && Concerns(l, d, i)
  {
    d[IndexOf(Names(d), l[i].name)]
  }

  // The position of the autoscaler that is given pools in the second pass.
  predicate IsScaler(l: seq<Addon>, i: nat) {
    i == IndexOf(Names(l), AUTOSCALER)
  }

  // The image that an addon shares with its default is written and then, on upgrade, lost
  // when the entry has become the user's own; except where the addon is replaced every time.
  predicate ImageLasts(once: seq<Addon>, d: seq<Addon>, images: map<string, string>, mode: Mode, i: nat)
    requires i < |once|
  {
    Concerns(once, d, i) ==>
      || (!mode.component && ReplacedAt(once, d, mode.Ensured(), mode.Replacing(), i))
      || Stays(once[i], DefaultOf(once, d, i), mode.isUpgrade, ImageFor(images, once[i].name))
  }

  predicate EntryLasts(once: seq<Addon>, d: seq<Addon>, images: map<string, string>, mode: Mode, i: nat)
    requires i < |once|
  {
    && ImageLasts(once, d, images, mode, i)
    && !(Moves(once, d, mode) && i == 0 && HasLimits(once[0]))
    && !(Moves(once, d, mode) && IsScaler(once, i) && (!Concerns(once, d, i) || once[i].data == ""))
  }

  // The first pass at an entry that has a default and is not replaced as a component.
  lemma FirstPassAt(l: seq<Addon>, d: seq<Addon>, images: map<string, string>, mode: Mode, i: nat)
    requires WellFormed(d) && ImagesFit(Prepared(l, d, mode), d, images)
    requires i < |Listed(l, d)| && Concerns(Listed(l, d), d, i) && !(mode.component && Overwritten(l, d, mode, i))
    ensures var k := IndexOf(Names(d), Listed(l, d)[i].name);
            FirstPass(Ready(l, d, images, mode)[i], ImagedDefaults(d, OwnNames(l, d, mode), images)[k], d[k],
                      ImageFor(images, Listed(l, d)[i].name))
  {
    hide Names, IndexOf, Ready, OwnNames, Prepared, PreparedAt, Listed, ImagesFit, Distinct, Overwritten;
    ReadyAt(l, d, images, mode, i);
    OwnMeans(l, d, mode, i);
    ListedHere(l, d, i);
    PreparedFields(l, d, mode, i);
    if ImageFor(images, Listed(l, d)[i].name) != "" {
      FitsHere(l, d, images, mode, i);
    }
  }

  // What the second pass fills in, at an entry that has a default and is not replaced.
  lemma SecondReady(once: seq<Addon>, d: seq<Addon>, images: map<string, string>, mode: Mode, i: nat)
    requires Distinct(Names(d)) && Listed(once, d) == once
    requires i < |once| && Concerns(once, d, i) && !ReplacedAt(once, d, mode.Ensured(), mode.Replacing(), i)
    ensures var r := Ready(once, d, images, mode)[i];
            var monitor := !mode.component && mode.isUpgrade && once[i].name == NETWORK_MONITOR;
            && r.name == once[i].name && r.data == once[i].data
            && r.enabled == (if monitor then Some(false) else once[i].enabled)
            && (!monitor ==>
                  Between(once[i], r, ImageFor(images, once[i].name), Moves(once, d, mode) && i == 0,
                          Moves(once, d, mode) && IsScaler(once, i)))
    ensures ImagedDefaults(d, OwnNames(once, d, mode), images)[IndexOf(Names(d), once[i].name)] == DefaultOf(once, d, i)
  {
    hide Names, IndexOf, Ready, OwnNames, Moved, WithoutLimits, Moves, ReplacedAt;
    ReadyAt(once, d, images, mode, i);
    OwnMeans(once, d, mode, i);
    MovedFields(once, d, mode, i, once[i]);
    MovedPools(once, d, mode, i);
    SameContainers(PreparedAt(once, d, mode, i), once[i]);
  }

  lemma MovedPools(l: seq<Addon>, d: seq<Addon>, mode: Mode, i: nat)
    requires i < |Listed(l, d)|
    ensures var r := Moved(l, d, mode, i, Listed(l, d)[i]);
            if Moves(l, d, mode) && IsScaler(Listed(l, d), i) then Listed(l, d)[i].pools == [] && r.pools != []
            else r.pools == Listed(l, d)[i].pools
  {
    hide Names, IndexOf, WithoutLimits, Listed, Replaced;
    MovedFields(l, d, mode, i, Listed(l, d)[i]);
    if Moves(l, d, mode) && IsScaler(Listed(l, d), i) {
      assert |Moved(l, d, mode, i, Listed(l, d)[i]).pools| == |mode.profiles|;
    }
  }

  // An entry that the second pass replaces was replaced by the first.
  lemma ReplacedBefore(l: seq<Addon>, d: seq<Addon>, images: map<string, string>, mode: Mode, i: nat)
    requires Distinct(Names(d)) && i < |Listed(l, d)|
    requires var once := Final(l, d, images, mode);
             Listed(once, d) == once && Names(once) == Names(Listed(l, d)) && Overwritten(once, d, mode, i)
    ensures Overwritten(l, d, mode, i)
  {
    hide Names, IndexOf, Final, Ready, OwnNames, ImagedDefaults, Listed, Assign;
    var once := Final(l, d, images, mode);
    assert Names(once)[i] == Names(Listed(l, d))[i];
    FinalAt(l, d, images, mode, i);
    if !Overwritten(l, d, mode, i) {
      ReadyAt(l, d, images, mode, i);
      PreparedFields(l, d, mode, i);
      MonitorNotReplaced(mode);
      AssignEnables(Ready(l, d, images, mode)[i],
                    ImagedDefaults(d, OwnNames(l, d, mode), images)[IndexOf(Names(d), Listed(l, d)[i].name)],
                    mode.component, mode.isUpgrade);
      assert false;
    }
  }

  lemma ReplacedAgain(l: seq<Addon>, d: seq<Addon>, images: map<string, string>, mode: Mode, i: nat)
    requires WellFormed(d) && NoLimits(d) && ImagesFit(Prepared(l, d, mode), d, images) && i < |Listed(l, d)|
    requires var once := Final(l, d, images, mode);
             Listed(once, d) == once && Names(once) == Names(Listed(l, d)) && Overwritten(once, d, mode, i)
    ensures var once := Final(l, d, images, mode);
            Final(once, d, images, mode)[i] == once[i] <==> EntryLasts(once, d, images, mode, i)
  {
    hide Names, IndexOf, Final, Ready, OwnNames, Prepared, Listed, Assign, Moves, HasLimits, Stays, ImagesFit, Distinct, NoLimits;
    var once := Final(l, d, images, mode);
    assert Names(once)[i] == Names(Listed(l, d))[i];
    ReplacedBefore(l, d, images, mode, i);
    ReplacedIsDefault(l, d, images, mode, i);
    ReplacedIsDefault(once, d, images, mode, i);
    OwnMeans(l, d, mode, i);
    OwnMeans(once, d, mode, i);
    var k := IndexOf(Names(d), once[i].name);
    var d1 := ImagedDefaults(d, OwnNames(l, d, mode), images)[k];
    ImagedDefaultsNames(d, OwnNames(l, d, mode), images);
    DefaultLimits(d, OwnNames(l, d, mode), images, k);
    NoLimitsFilled(d1, mode);
    ScalerNotReplaced(mode);
    ComponentsNeverMove(once, d, mode);
    if mode.component {
      ListedHere(l, d, i);
      if ImageFor(images, once[i].name) != "" {
        FitsHere(l, d, images, mode, i);
        PreparedFields(l, d, mode, i);
      }
      ComponentReplaced(d1, d[k], mode, ImageFor(images, once[i].name));
    }
  }

  lemma ComponentsNeverMove(l: seq<Addon>, d: seq<Addon>, mode: Mode)
    ensures mode.component ==> !Moves(l, d, mode)
  {
  }

  lemma NoLimitsFilled(a: Addon, mode: Mode)
    requires Limit(a.config, MIN_NODES) == "" && Limit(a.config, MAX_NODES) == ""
    ensures !HasLimits(Assign(a, a, mode.component, mode.isUpgrade))
  {
    hide Merged;
  }

  // A component that is replaced has the image only if it was not listed.
  lemma ComponentReplaced(d1: Addon, d: Addon, mode: Mode, image: string)
    requires Distinct(ContainerNames(d.containers)) && mode.component && mode.isUpgrade
    requires d1 == d || (image != "" && d.containers != [] && d1 == WithImage(d, image))
    ensures var once := Assign(d1, d1, mode.component, mode.isUpgrade);
            once == Assign(d, d, mode.component, mode.isUpgrade) <==> Stays(once, d, mode.isUpgrade, image)
  {
    hide Merged, FilledConfig, Distinct, ContainerNames, DefaultImage;
    assert d.containers[..|d.containers|] == d.containers;
    MergeSelf(d.containers, |d.containers|, true);
    if d.containers != [] {
      OwnDefaultImage(d.containers, image);
      if image != "" {
        MergeShared(d.containers, true, image);
      }
    }
  }

  lemma OwnDefaultImage(ds: seq<Container>, image: string)
    requires ds != []
    ensures forall c: Container :: c.name == ds[0].name ==> DefaultImage([c], ds, image) == ds[0].image
  {
    FirstOfAll(ds);
  }

  lemma FilledInAgain(l: seq<Addon>, d: seq<Addon>, images: map<string, string>, mode: Mode, i: nat)
    requires WellFormed(d) && NoLimits(d) && ImagesFit(Prepared(l, d, mode), d, images) && i < |Listed(l, d)|
    requires var once := Final(l, d, images, mode);
             && Listed(once, d) == once && Names(once) == Names(Listed(l, d)) && Concerns(once, d, i)
             && !Overwritten(once, d, mode, i)
    ensures var once := Final(l, d, images, mode);
            Final(once, d, images, mode)[i] == once[i] <==> EntryLasts(once, d, images, mode, i)
  {
    hide Names, IndexOf, Final, Ready, OwnNames, Prepared, Listed, Assign, Moves, HasLimits, Stays, ImagesFit, Distinct, NoLimits,
      ImagedDefaults, Between, FirstPass;
    var once := Final(l, d, images, mode);
    assert Names(once)[i] == Names(Listed(l, d))[i];
    var k, image := IndexOf(Names(d), once[i].name), ImageFor(images, once[i].name);
    var x, r := Ready(l, d, images, mode)[i], Ready(once, d, images, mode)[i];
    FinalAt(l, d, images, mode, i);
    FinalAt(once, d, images, mode, i);
    SecondReady(once, d, images, mode, i);
    ComponentAlways(l, once, d, mode, i);
    FirstPassAt(l, d, images, mode, i);
    var d1 := ImagedDefaults(d, OwnNames(l, d, mode), images)[k];
    EnabledAt(d, OwnNames(l, d, mode), images, k);
    if !mode.component && mode.isUpgrade && once[i].name == NETWORK_MONITOR {
      MonitorIsOff(l, d, images, mode, i);
    }
    if once[i].enabled != Some(true) || once[i].data != "" {
      BlankAgain(x, d1, r, d[k], mode.component, mode.isUpgrade);
      BlankLasts(once, d, images, mode, i);
    } else {
      LimitsOf(d, k);
      AssignAgain(x, d1, d[k], r, image, mode, Moves(once, d, mode) && i == 0, Moves(once, d, mode) && IsScaler(once, i));
    }
  }

  lemma LimitsOf(d: seq<Addon>, k: nat)
    requires k < |d| && NoLimits(d)
    ensures Limit(d[k].config, MIN_NODES) == "" && Limit(d[k].config, MAX_NODES) == ""
  {
  }

  // Whether a component is replaced depends on its name alone.
  lemma ComponentAlways(l: seq<Addon>, once: seq<Addon>, d: seq<Addon>, mode: Mode, i: nat)
    requires i < |Listed(l, d)| && Listed(once, d) == once && Names(once) == Names(Listed(l, d))
    ensures mode.component ==> (Overwritten(l, d, mode, i) <==> Overwritten(once, d, mode, i))
  {
    hide Names, IndexOf, Listed;
    assert Names(once)[i] == Names(Listed(l, d))[i];
  }

  lemma MonitorIsOff(l: seq<Addon>, d: seq<Addon>, images: map<string, string>, mode: Mode, i: nat)
    requires i < |Listed(l, d)| && Concerns(Listed(l, d), d, i)
    requires !mode.component && mode.isUpgrade && Listed(l, d)[i].name == NETWORK_MONITOR
    ensures Final(l, d, images, mode)[i].enabled == Some(false)
  {
    hide Names, IndexOf, Ready, Final, OwnNames, ImagedDefaults, Listed, Assign, PreparedAt;
    FinalAt(l, d, images, mode, i);
    ReadyAt(l, d, images, mode, i);
    PreparedFields(l, d, mode, i);
    AssignEnables(Ready(l, d, images, mode)[i],
                  ImagedDefaults(d, OwnNames(l, d, mode), images)[IndexOf(Names(d), Listed(l, d)[i].name)],
                  mode.component, mode.isUpgrade);
  }

  lemma BlankLasts(once: seq<Addon>, d: seq<Addon>, images: map<string, string>, mode: Mode, i: nat)
    requires i < |once| && Concerns(once, d, i) && Listed(once, d) == once
    requires once[i].containers == [] && !HasLimits(once[i]) && (once[i].enabled != Some(true) || once[i].data != "")
    ensures EntryLasts(once, d, images, mode, i)
  {
    hide Names, IndexOf, Listed, HasLimits;
  }

  // An entry without a default, or a second one of its name, is changed by the steps on
  // upgrade only.
  lemma ReadyElse(l: seq<Addon>, d: seq<Addon>, images: map<string, string>, mode: Mode, i: nat)
    requires i < |Listed(l, d)| && !Concerns(Listed(l, d), d, i)
    ensures var moved := Moved(l, d, mode, i, Listed(l, d)[i]);
            Ready(l, d, images, mode)[i]
            == if IsMonitor(Listed(l, d), mode, i) then moved.(enabled := Some(false)) else moved
  {
    hide Names, IndexOf, Listed, OwnNames, WithImage, Moved, Moves, Upgraded, WithoutLimits;
    var prepared := Prepared(l, d, mode);
    var imaged := Imaged(prepared, d, images);
    PreparedNames(l, d, mode);
    UpgradedNames(l, d, mode);
    if !mode.component {
      UpgradedAt(l, d, mode, i);
    }
    NotMoved(l, d, mode);
    ImagedNames(prepared, d, images);
    ImagedDefaultsNames(d, OwnNames(l, d, mode), images);
    assert Names(prepared)[i] == Names(Listed(l, d))[i] == Names(imaged)[i];
  }

  predicate IsMonitor(l: seq<Addon>, mode: Mode, i: nat) {
    !mode.component && mode.isUpgrade && i == IndexOf(Names(l), NETWORK_MONITOR)
  }

  lemma LeftAlone(l: seq<Addon>, d: seq<Addon>, images: map<string, string>, mode: Mode, i: nat)
    requires i < |Listed(l, d)|
    requires var once := Final(l, d, images, mode);
             Listed(once, d) == once && Names(once) == Names(Listed(l, d)) && !Concerns(once, d, i)
    ensures var once := Final(l, d, images, mode);
            Final(once, d, images, mode)[i] == once[i] <==> EntryLasts(once, d, images, mode, i)
  {
    hide Names, IndexOf, Final, Ready, OwnNames, Listed, Moves, Moved, HasLimits, ImagedDefaults, WithoutLimits, Limit;
    var once := Final(l, d, images, mode);
    assert Names(once)[i] == Names(Listed(l, d))[i];
    FinalAt(l, d, images, mode, i);
    FinalAt(once, d, images, mode, i);
    ReadyElse(l, d, images, mode, i);
    ReadyElse(once, d, images, mode, i);
    MovedFields(once, d, mode, i, once[i]);
    MovedPools(once, d, mode, i);
    LimitsTaken(once[i]);
  }

  lemma LimitsTaken(a: Addon)
    ensures WithoutLimits(a).config == a.config <==> !HasLimits(a)
  {
    LimitsAlone(a);
  }

  // In the second pass the autoscaler is given pools, which then stay, or the first entry
  // loses limits.
  predicate MovesAgain(once: seq<Addon>, d: seq<Addon>, mode: Mode) {
    !mode.component && mode.isUpgrade && Converts(once, mode.profiles) &&
    var a := IndexOf(Names(once), AUTOSCALER);
    HasLimits(once[0]) || !Concerns(once, d, a) || once[a].data == ""
  }

  lemma LastsAll(once: seq<Addon>, d: seq<Addon>, images: map<string, string>, mode: Mode)
    requires Listed(once, d) == once
    ensures (forall i :: 0 <= i < |once| ==> EntryLasts(once, d, images, mode, i))
       <==> (forall i :: 0 <= i < |once| ==> ImageLasts(once, d, images, mode, i)) && !MovesAgain(once, d, mode)
  {
    hide Names, IndexOf, Listed, HasLimits, ImageLasts, Concerns;
    forall i | 0 <= i < |once|
      ensures EntryLasts(once, d, images, mode, i) ==> ImageLasts(once, d, images, mode, i)
      ensures ImageLasts(once, d, images, mode, i) && !MovesAgain(once, d, mode) ==> EntryLasts(once, d, images, mode, i)
    {
    }
    if Moves(once, d, mode) {
      var a := IndexOf(Names(once), AUTOSCALER);
      assert MovesAgain(once, d, mode) ==> !EntryLasts(once, d, images, mode, a) || !EntryLasts(once, d, images, mode, 0);
    }
  }

  // The second pass changes nothing, exactly unless on upgrade a written image is lost or the
  // autoscaler is converted once more.
  lemma FinalTwice(l: seq<Addon>, d: seq<Addon>, images: map<string, string>, mode: Mode)
    requires WellFormed(d) && NoLimits(d) && ImagesFit(Prepared(l, d, mode), d, images)
    ensures var once := Final(l, d, images, mode);
            Final(once, d, images, mode) == once
            <==> (forall i :: 0 <= i < |once| ==> ImageLasts(once, d, images, mode, i)) && !MovesAgain(once, d, mode)
  {
    hide Names, IndexOf, Final, Listed, Prepared, ImagesFit, EntryLasts, ImageLasts, MovesAgain, Distinct, NoLimits, Concerns,
      Overwritten;
    var once := Final(l, d, images, mode);
    AllThere(l, d, images, mode);
    forall i | 0 <= i < |once|
      ensures Final(once, d, images, mode)[i] == once[i] <==> EntryLasts(once, d, images, mode, i)
    {
      if !Concerns(once, d, i) {
        LeftAlone(l, d, images, mode, i);
      } else if Overwritten(once, d, mode, i) {
        ReplacedAgain(l, d, images, mode, i);
      } else {
        FilledInAgain(l, d, images, mode, i);
      }
    }
    LastsAll(once, d, images, mode);
  }

  // Without an upgrade nothing can be lost, whatever the images.
  lemma FinalTwiceWithoutUpgrade(l: seq<Addon>, d: seq<Addon>, images: map<string, string>, mode: Mode)
    requires WellFormed(d) && NoLimits(d) && ImagesFit(Prepared(l, d, mode), d, images) && !mode.isUpgrade
    ensures Final(Final(l, d, images, mode), d, images, mode) == Final(l, d, images, mode)
  {
    hide Names, IndexOf, Final, Listed, Prepared, ImagesFit, ImageLasts, Distinct, NoLimits, Concerns;
    var once := Final(l, d, images, mode);
    FinalTwice(l, d, images, mode);
    AllThere(l, d, images, mode);
    forall i | 0 <= i < |once|
      ensures ImageLasts(once, d, images, mode, i)
    {
      ImageStays(l, d, images, mode, i);
    }
  }

  lemma ImageStays(l: seq<Addon>, d: seq<Addon>, images: map<string, string>, mode: Mode, i: nat)
    requires WellFormed(d) && ImagesFit(Prepared(l, d, mode), d, images) && !mode.isUpgrade && i < |Listed(l, d)|
    requires Names(Final(l, d, images, mode)) == Names(Listed(l, d))
    ensures ImageLasts(Final(l, d, images, mode), d, images, mode, i)
  {
    hide Names, IndexOf, Final, Ready, OwnNames, Prepared, Listed, Assign, ImagesFit, Distinct, ImagedDefaults, FirstPass;
    var once := Final(l, d, images, mode);
    assert Names(once)[i] == Names(Listed(l, d))[i];
    FinalAt(l, d, images, mode, i);
    if Concerns(once, d, i) {
      FirstPassAt(l, d, images, mode, i);
      var k := IndexOf(Names(d), once[i].name);
      var x, d1 := Ready(l, d, images, mode)[i], ImagedDefaults(d, OwnNames(l, d, mode), images)[k];
      ImageIsLeft(x, d1, d[k], ImageFor(images, once[i].name));
      OnContainers(x, d1, mode);
    }
  }

  lemma OnContainers(x: Addon, d1: Addon, mode: Mode)
    ensures var once := Assign(x, d1, mode.component, mode.isUpgrade);
            once.containers == if once.enabled == Some(true) && once.data == "" then Merged(x.containers, d1.containers, mode.isUpgrade)
                               else []
  {
    hide Merged, FilledConfig;
  }

  // ---- Crashes of the second pass ----

  // The entry has kept a container for the image.
  predicate StillThere(once: seq<Addon>, d: seq<Addon>, mode: Mode, i: nat)
    requires i < |once| && Concerns(once, d, i)
  {
    if ReplacedAt(once, d, mode.Ensured(), mode.Replacing(), i) && !mode.component then true
    else
      && once[i].enabled == Some(true) && once[i].data == ""
      && (ReplacedAt(once, d, mode.Ensured(), mode.Replacing(), i) ==> DefaultOf(once, d, i).containers != [])
  }

  // After a first pass without a crash, the second one crashes exactly if an entry that has a
  // custom image is off or has raw data, and is not replaced first.
  lemma SecondFits(l: seq<Addon>, d: seq<Addon>, images: map<string, string>, mode: Mode)
    requires WellFormed(d) && NoLimits(d) && ImagesFit(Prepared(l, d, mode), d, images)
    ensures var once := Final(l, d, images, mode);
            ImagesFit(Prepared(once, d, mode), d, images)
            <==> forall i :: 0 <= i < |once| && Concerns(once, d, i) && ImageFor(images, once[i].name) != "" ==>
                   StillThere(once, d, mode, i)
  {
    hide Names, IndexOf, Final, Listed, Prepared, ImagesFit, Distinct, NoLimits, StillThere, Concerns;
    var once := Final(l, d, images, mode);
    AllThere(l, d, images, mode);
    FitsByEntry(once, d, images, mode);
    forall i | 0 <= i < |once| && Concerns(once, d, i) && ImageFor(images, once[i].name) != ""
      ensures PreparedAt(once, d, mode, i).containers != [] <==> StillThere(once, d, mode, i)
    {
      FitsAgain(l, d, images, mode, i);
    }
  }

  lemma FitsByEntry(once: seq<Addon>, d: seq<Addon>, images: map<string, string>, mode: Mode)
    requires Listed(once, d) == once
    ensures ImagesFit(Prepared(once, d, mode), d, images)
       <==> forall i :: 0 <= i < |once| && Concerns(once, d, i) && ImageFor(images, once[i].name) != "" ==>
              PreparedAt(once, d, mode, i).containers != []
  {
    hide Names, IndexOf, Listed, Prepared, PreparedAt;
    PreparedNames(once, d, mode);
    var prepared := Prepared(once, d, mode);
    forall i | 0 <= i < |once|
      ensures Customized(prepared, d, images, i) <==> Concerns(once, d, i) && ImageFor(images, once[i].name) != ""
      ensures Concerns(once, d, i) ==> prepared[i] == PreparedAt(once, d, mode, i)
    {
      assert Names(prepared)[i] == Names(once)[i];
      if Concerns(once, d, i) {
        ReadyAt(once, d, images, mode, i);
      }
    }
  }

  lemma FitsAgain(l: seq<Addon>, d: seq<Addon>, images: map<string, string>, mode: Mode, i: nat)
    requires WellFormed(d) && NoLimits(d) && ImagesFit(Prepared(l, d, mode), d, images) && i < |Listed(l, d)|
    requires var once := Final(l, d, images, mode);
             && Listed(once, d) == once && Names(once) == Names(Listed(l, d)) && Concerns(once, d, i)
             && ImageFor(images, once[i].name) != ""
    ensures var once := Final(l, d, images, mode);
            PreparedAt(once, d, mode, i).containers != [] <==> StillThere(once, d, mode, i)
  {
    hide Names, IndexOf, Final, Ready, OwnNames, Prepared, PreparedAt, Listed, Assign, ImagesFit, Distinct, NoLimits, FirstPass,
      ImagedDefaults, Merged;
    var once := Final(l, d, images, mode);
    assert Names(once)[i] == Names(Listed(l, d))[i];
    FinalAt(l, d, images, mode, i);
    PreparedFields(once, d, mode, i);
    FitsHere(l, d, images, mode, i);
    PreparedFields(l, d, mode, i);
    ComponentAlways(l, once, d, mode, i);
    var k := IndexOf(Names(d), once[i].name);
    var x, d1 := Ready(l, d, images, mode)[i], ImagedDefaults(d, OwnNames(l, d, mode), images)[k];
    OnContainers(x, d1, mode);
    if Overwritten(once, d, mode, i) {
      ReplacedBefore(l, d, images, mode, i);
      if mode.component {
        ReplacedIsDefault(l, d, images, mode, i);
        OnContainers(d1, d1, mode);
        SameNumber(d, OwnNames(l, d, mode), images, k, mode);
      }
    } else {
      FirstPassAt(l, d, images, mode, i);
      SomeContainer(x, d1, d[k], ImageFor(images, once[i].name), mode.isUpgrade);
    }
  }

  lemma SameNumber(d: seq<Addon>, own: set<string>, images: map<string, string>, k: nat, mode: Mode)
    requires k < |d|
    ensures var d1 := ImagedDefaults(d, own, images)[k];
            Merged(d1.containers, d1.containers, mode.isUpgrade) == [] <==> d[k].containers == []
  {
    hide IndexOf;
  }

  lemma SomeContainer(x: Addon, d1: Addon, d: Addon, image: string, isUpgrade: bool)
    requires FirstPass(x, d1, d, image) && image != ""
    ensures Merged(x.containers, d1.containers, isUpgrade) != []
  {
    hide Merged;
    FirstMerged(x.containers, d1.containers, isUpgrade);
  }

  // ---- A cluster that lists nothing ----

  lemma {:induction false} NothingOmitted(d: seq<Addon>, names: seq<string>)
    requires names == []
    ensures MissingAddons(d, names) == d
  {
    if d != [] {
      var n := |d| - 1;
      NothingOmitted(d[..n], names);
      assert d == d[..n] + [d[n]];
    }
  }

  lemma NoneListed(l: seq<Addon>, d: seq<Addon>)
    requires l == []
    ensures Listed(l, d) == d
  {
    NothingOmitted(d, Names(l));
  }

  lemma ConcernedItself(d: seq<Addon>, k: nat)
    requires Distinct(Names(d)) && k < |d|
    ensures Concerns(d, d, k) && IndexOf(Names(d), d[k].name) == k
  {
    assert Names(d)[k] == d[k].name;
  }

  ghost predicate EveryImageFits(d: seq<Addon>, images: map<string, string>) {
    forall k :: 0 <= k < |d| && ImageFor(images, d[k].name) != "" ==> d[k].containers != []
  }

  lemma FitsAtFirst(l: seq<Addon>, d: seq<Addon>, images: map<string, string>, mode: Mode)
    requires Distinct(Names(d)) && EveryImageFits(d, images) && l == []
    ensures ImagesFit(Prepared(l, d, mode), d, images)
  {
    hide Names, IndexOf, Listed, Prepared, PreparedAt;
    NoneListed(l, d);
    PreparedNames(l, d, mode);
    var prepared := Prepared(l, d, mode);
    forall i | 0 <= i < |prepared| && Customized(prepared, d, images, i)
      ensures prepared[i].containers != []
    {
      assert Names(prepared)[i] == Names(d)[i];
      ConcernedItself(d, i);
      ReadyAt(l, d, images, mode, i);
      PreparedFields(l, d, mode, i);
    }
  }

  // A custom image for a default that is off, such as the cloud controller manager where it is
  // not used: the first pass writes it and drops the container, the second one crashes.
  lemma OffThenCrash(l: seq<Addon>, d: seq<Addon>, images: map<string, string>, mode: Mode, k: nat)
    requires WellFormed(d) && NoLimits(d) && EveryImageFits(d, images) && !mode.isUpgrade && l == []
    requires k < |d| && d[k].enabled != Some(true) && ImageFor(images, d[k].name) != ""
    ensures ImagesFit(Prepared(l, d, mode), d, images)
    ensures !ImagesFit(Prepared(Final(l, d, images, mode), d, mode), d, images)
  {
    hide Names, IndexOf, Listed, Final, Ready, OwnNames, Prepared, PreparedAt, Assign, ImagedDefaults, NoLimits, Distinct, ImagesFit,
      EveryImageFits;
    NoneListed(l, d);
    FitsAtFirst(l, d, images, mode);
    AllThere(l, d, images, mode);
    var once := Final(l, d, images, mode);
    ConcernedItself(d, k);
    assert Names(once)[k] == Names(d)[k];
    SecondFits(l, d, images, mode);
    FinalAt(l, d, images, mode, k);
    ReadyAt(l, d, images, mode, k);
    PreparedFields(l, d, mode, k);
    EnabledAt(d, OwnNames(l, d, mode), images, k);
    AssignEnables(Ready(l, d, images, mode)[k], ImagedDefaults(d, OwnNames(l, d, mode), images)[k], mode.component, mode.isUpgrade);
    assert !StillThere(once, d, mode, k);
  }

  ghost predicate WrittenThenLost(once: seq<Addon>, d: seq<Addon>, images: map<string, string>, mode: Mode, k: nat) {
    && k < |once| && k < |d| && HasImage(once[k], ImageFor(images, d[k].name))
    && Final(once, d, images, mode) != once
  }

  // An upgrade writes the custom image into an enabled default, the next upgrade takes the
  // image of the default again.
  lemma ImageLostLater(l: seq<Addon>, d: seq<Addon>, images: map<string, string>, mode: Mode, k: nat)
    requires WellFormed(d) && NoLimits(d) && EveryImageFits(d, images) && mode.isUpgrade && !mode.component && l == []
    requires k < |d| && d[k].enabled == Some(true) && d[k].data == "" && d[k].name !in mode.Replacing() + {NETWORK_MONITOR}
    requires ImageFor(images, d[k].name) != "" && !HasImage(d[k], ImageFor(images, d[k].name))
    ensures WrittenThenLost(Final(l, d, images, mode), d, images, mode, k)
  {
    hide Names, IndexOf, Listed, Final, Ready, OwnNames, Prepared, PreparedAt, Assign, ImagedDefaults, NoLimits, Distinct, ImagesFit,
      EveryImageFits, Merged, ContainerNames;
    NoneListed(l, d);
    FitsAtFirst(l, d, images, mode);
    AllThere(l, d, images, mode);
    var once := Final(l, d, images, mode);
    var d1 := ImagedDefaults(d, OwnNames(l, d, mode), images)[k];
    ConcernedItself(d, k);
    assert Names(once)[k] == Names(d)[k];
    FinalAt(l, d, images, mode, k);
    ReadyAt(l, d, images, mode, k);
    PreparedFields(l, d, mode, k);
    AssignEnables(Ready(l, d, images, mode)[k], d1, mode.component, mode.isUpgrade);
    AssignData(Ready(l, d, images, mode)[k], d1, mode.component, mode.isUpgrade);
    CustomImageWins(l, d, images, mode, k);
    FinalTwice(l, d, images, mode);
    FirstPassAt(l, d, images, mode, k);
    OnContainers(Ready(l, d, images, mode)[k], d1, mode);
    OwnMeans(l, d, mode, k);
    FirstImage(l, d, images, mode, k, d1);
    OwnDefaultImage(d[k].containers, ImageFor(images, d[k].name));
    assert !ImageLasts(once, d, images, mode, k);
  }

  // Container 0 is still the default's.
  lemma FirstImage(l: seq<Addon>, d: seq<Addon>, images: map<string, string>, mode: Mode, k: nat, d1: Addon)
    requires WellFormed(d) && EveryImageFits(d, images) && k < |d| && ImageFor(images, d[k].name) != ""
    requires Listed(l, d) == d && Concerns(d, d, k) && d1 == ImagedDefaults(d, OwnNames(l, d, mode), images)[k]
    requires IndexOf(Names(d), d[k].name) == k && !(mode.component && Overwritten(l, d, mode, k))
    requires FirstPass(Ready(l, d, images, mode)[k], d1, d[k], ImageFor(images, d[k].name))
    ensures d[k].containers != []
    ensures var cs := Merged(Ready(l, d, images, mode)[k].containers, d1.containers, mode.isUpgrade);
            cs != [] && cs[0].name == d[k].containers[0].name
  {
    hide Names, IndexOf, Listed, Ready, Merged, Prepared, PreparedAt, Moved;
    var image := ImageFor(images, d[k].name);
    ReadyAt(l, d, images, mode, k);
    PreparedFields(l, d, mode, k);
    var x := Ready(l, d, images, mode)[k];
    assert x.containers == WithImage(d[k], image).containers;
    FirstMerged(x.containers, d1.containers, mode.isUpgrade);
  }
}
