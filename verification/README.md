# Verification of the cluster lifecycle logic

This project models the parts of the cluster engine that compute something on their own, and proves
properties of the model with Dafny 4.11:

- the feature-gate string language and the layering of flag maps for the scheduler, the cloud controller
  manager, the controller manager, the API server and the kubelets (`Options`, `Strings`, `GoMaps`, `Gates`, `GateSearch`,
  `CommaLists`, `Versions`, `Cluster`, `Layering`, `Scheduler`, `CloudControllerManager`,
  `ControllerManager`, `ApiServer`, `NodeLayering`, `Kubelet`, `KubeletUpgrade`,
  `KubeletInheritance`), and the flags that depend on the version or the cluster one by one (`SchedulerFlags`,
  `CloudControllerManagerFlags`, `ControllerManagerFlags`, `ApiServerFlags`, `KubeletFlags`);
- the reconciliation of addons and components with their defaults, on values (`Reconcile`), on a heap of
  shared slices and maps (`Addons`), a second time (`SecondPass`), and the copying between the two API models
  (`Converters`) with the choice of the network plugin (`Network`);
- scaling of availability sets (`Scale`) and the drain barrier it relies on (`Drain`);
- the certificate rotation protocol (`Rotation`) and its poll loops (`Wait`);
- completion of certificate profiles and the arithmetic of master addresses (`Certs`);
- upgrade paths (`Upgrades`), over the precedence of section 11 of Semantic Versioning 2.0.0;
- the strict check of JSON keys (`StrictJson`).

`dafny verify dfyconfig.toml` checks everything.

**How the model is built.** Code that works by changing things is imperative here too: a Go map is a heap object
(`GoMaps.StringMap`), a slice's backing array is one (`Addons.ContainerArray`), and structs whose fields are
assigned are classes. Each method is proved equal to a function of the old state, and the theorems are lemmas about
these functions. Every `range` over a Go map picks its keys in an arbitrary order, so each contract also says that
the order makes no difference. What the environment decides (whether a remote step succeeds, what a list call
returns) is either an arbitrary choice inside a method or a parameter.

**What did not hold.** Some of the properties one would expect fail for certain inputs. The model keeps the code as
it is; each of these is stated with its exact condition.

- Configuring the controller manager at an old version and then at a new one keeps `ServiceNodeExclusion=true` if
  the old version is in [1.9, 1.19), the new one is 1.19 or later, and the user never set the gate
  (`ControllerManager.UpgradeAbsorbsUnlessNodeExclusion`). The API server keeps `--insecure-port=0` in the same way
  (`ApiServer.UpgradeAbsorbsUnlessInsecurePort`). The cluster-wide kubelet flags lose a limit on process ids if
  they were configured before 1.10 (`KubeletUpgrade.UpgradeAbsorbsUnless`, `KubeletUpgrade.LimitIsLost`). They would also
  keep the node status frequency of the older version's table; but every entry of the tables has the same constant
  (`pkg/api/k8s_versions.go:914`), and so has Azure Stack, so no two versions differ in it at present.
- The masters and the agent pools inherit the cluster's gates when they are configured first and keep them: a default
  gate that a newer version adds to the cluster's gates never reaches the nodes of an upgraded cluster unless they bind
  it themselves (`KubeletInheritance.MasterAbsorbsUnless`, `KubeletInheritance.PoolAbsorbsUnless`,
  `KubeletInheritance.PodSecurityLags`).
- On upgrade, the pod-pids check of an agent pool searches the raw gate string. A gate that the search finds but the
  parser drops is gone the next time (`Kubelet.PoolTwice`).
- `drainNodes` closes its channel when the first node fails, while other nodes may still send: some interleaving
  panics exactly if there are at least two nodes (`Drain.PanicsWithTwoNodes`).
- A negative `--new-node-count` runs the selection loop below index 0 (`Scale.ScaleCmd.SelectVMs`).
- An agent pool whose name starts with `master` yields VM names that the rotation takes for control plane VMs, so
  its nodes keep their old certificates (`Rotation.RotatedUnlessPrefixed`). `docs/topics/rotate-certs.md` knows no
  such exception. It also has the control plane nodes rebooted in any case; the code reboots them in availability
  sets only, and so does the model.
- If completing a certificate profile fails after a new authority was stored in it, a second attempt takes that
  authority for a supplied one and keeps pairs that were supplied without any authority: every pair belongs to the
  authority of its profile exactly if none was supplied (`Certs.RetryAfterFailure`, `Certs.StrangerKept`).
- The internal load balancer's address is the one of a master in an availability set of more than ten masters
  unless the last byte wraps (`Certs.LoadBalancerCollides`). The completion itself does not exclude that, but no such
  cluster can be loaded: `pkg/api/vlabs/types.go:426` admits one, three or five masters.
- A custom image for an entry that lists no container crashes (`Reconcile.ImageCrashes`, and exactly when in
  `Addons.KubernetesConfig.SetDefaults`). The comment in the code says that index 0 is safe. On upgrade, the image of an
  entry of the user's is replaced by the default, and a custom image of the cloud controller manager is lost with the
  entry (`Reconcile.CustomImageWins`).
- A custom image for a component or addon that is off, such as that of an unused cloud controller manager, is written
  once, and its container is dropped; filling in the defaults again then crashes (`SecondPass.SecondFits`,
  `SecondPass.OffThenCrash`). On upgrade, moreover, a second pass loses a custom image that the first one wrote into a
  default (`SecondPass.FinalTwice`, `SecondPass.ImageLostLater`).
- An upgrade overrides the user's word on an addon: up to the synthesis, it turns on by default some that the user
  disabled, and others off (`Reconcile.EnabledAfter` with the exact exceptions, `Reconcile.UpgradeOverridesUser`). The
  blocks after the synthesis override more.
- When an upgrade gives the cluster autoscaler its pools, the first one gets the limits of the first addon of the list
  instead of those of the autoscaler, since the loop variable hides the index (`Reconcile.LimitsMoved`,
  `Reconcile.LimitsLost`). Whichever addon is first loses the two configuration entries (`Reconcile.LimitsMoveAway`).

## Model

| member | source | states |
|---|---|---|
| Gates.ApplyItemsIsUnion | pkg/api/defaults.go:1185-1198 | parsing into a map that has bindings adds exactly the bindings it lacks |
| Gates.ParseClean | pkg/api/defaults.go:1185-1198 | whatever the input, parsed keys and values contain no separators |
| Gates.SortedUnique | pkg/api/defaults.go:1200-1212 | a set of keys has one strictly ascending listing |
| Gates.ParsePrint | pkg/api/defaults.go:1185-1212 | round trip: every map free of separators is recovered from its printed form |
| Gates.CanonicalForm | pkg/api/defaults.go:1147-1212 | two strings print alike exactly if they mean the same map; printing keeps the meaning |
| Gates.CombineFirstWins | pkg/api/defaults.go:1147-1154 | the first input that binds a gate decides; no gate appears from nowhere |
| Gates.CombineFlatten | pkg/api/defaults.go:1147-1154 | merging is associative and idempotent: a merged input may be replaced by its parts |
| Gates.CombineAbsorbs | pkg/api/defaults.go:1147-1154 | an input that already occurred adds nothing |
| Gates.RemoveRoundTrip | pkg/api/defaults.go:1176-1183 | removal leaves exactly the other gates, with their values |
| Gates.RemoveUnion | pkg/api/defaults.go:1176-1183 | only the union of the removed keys matters, not order, repetition or grouping |
| Gates.RemoveDistributes | pkg/api/defaults.go:1147-1183 | removing after merging is merging after removing |
| Gates.ApplyValueStringToMap | pkg/api/defaults.go:1185-1198 | the loop computes the union of the parsed string and the map, the map winning |
| Gates.SortStrings | pkg/api/defaults.go:1206 | a sorted permutation |
| Gates.MapToString | pkg/api/defaults.go:1200-1212 | the output is a function of the map: iteration order does not show |
| Gates.CombineValues | pkg/api/defaults.go:1147-1154 | the method computes the merge of its inputs |
| Gates.RemoveKeys | pkg/api/defaults.go:1176-1183 | the method computes the removal |
| Strings.LeMeans | pkg/api/defaults.go:1206 | the order of the listing: the first difference decides, and a beginning comes first |
| Strings.TrimMeans | pkg/api/defaults.go:1185-1198 | trimming cuts off exactly the outer spaces |
| GateSearch.ContainsPrinted | pkg/api/defaults-kubelet.go:172-184 | searching a printed gate string finds a gate iff some key ends in the name and its value starts with the searched one |
| GateSearch.FoundAgain | pkg/api/defaults-kubelet.go:172-184 | pruning other gates and merging defaults does not lose a found gate |
| CommaLists.RemoveFromCommaSeparatedList | pkg/api/common/flags.go:9-23 | the loops compute the list of the next row |
| CommaLists.RemoveFromMeans | pkg/api/common/flags.go:9-23 | what is left are, in their order and without outer spaces, exactly the entries that are none of the given names but for case and outer spaces |
| CommaLists.NoneLeft | pkg/api/common/flags.go:9-23 | no entry of the result is one of the names |
| Strings.TrimSpaceMeans | pkg/api/common/flags.go:13-18 | outer spaces, all of them and nothing else, are cut off |
| CommaLists.RemoveFromIdempotent | pkg/api/common/flags.go:9-23 | removing once removes for good |
| Versions.CompareFlip | pkg/api/common/versions.go:789-793 | precedence is antisymmetric; versions tie exactly if they differ in build metadata only |
| Versions.CompareTransitive | pkg/api/common/versions.go:789-793 | precedence is transitive, also for prereleases |
| Versions.ReleasePrecedence | pkg/api/common/versions.go:789-793 | major, then minor, then patch decides; a prerelease comes before its release |
| Versions.PrereleasePrecedence | pkg/api/common/versions.go:789-793 | the example of section 11 of Semantic Versioning 2.0.0 |
| Versions.GeMonotone | pkg/api/common/versions.go:789-793 | a newer version passes every threshold that an older one passes |
| GoMaps.StringMap.FillMissing | pkg/api/defaults-scheduler.go:30-36 | the fill loop gives the union, existing entries winning |
| GoMaps.StringMap.Overwrite | pkg/api/defaults-scheduler.go:43-45 | the overwrite loop gives the union, new entries winning |
| Layering.InvalidGatesGrow | pkg/api/defaults-scheduler.go:47-138 | a gate removed at some version stays removed at every later one |
| Layering.PodSecurityGone | pkg/api/defaults-scheduler.go:47-138 | a gate of the third list is removed exactly from 1.28 on (`VolumeSnapshotGate`, `MigrationGate` and `TopologyGate` do the same for the other lists) |
| Layering.AddDefaultFeatureGates | pkg/api/defaults.go:1136-1142 | only the gate string changes: the default is merged below the user's gates from the minimum version on |
| Layering.RemoveInvalidFeatureGates | pkg/api/defaults.go:1156-1158 | only the gate string changes |
| Layering.ReplaceFlags | pkg/api/defaults.go:1161-1173 | whatever the iteration order, the same values end up under the new names |
| Layering.RenamedUnique | pkg/api/defaults.go:1161-1173 | the renaming relation determines the result |
| Layering.MergeThenRemove | pkg/api/defaults.go:1147-1183 | merging defaults and removing gates, as one map equation |
| Layering.Layers.ApplyFlag | pkg/api/defaults-controller-manager.go:73-233 | precedence of every flag: forced, else removed, else the user's, else the default |
| Layering.Layers.ApplyGates | pkg/api/defaults-controller-manager.go:73-233 | the final gates: user over defaults, minus the invalid ones |
| Layering.Absorption | pkg/api/defaults-controller-manager.go:73-233 | configuring at an older version first leaves no trace iff no older default gate and no older default flag sticks |
| Scheduler.SetSchedulerConfig | pkg/api/defaults-scheduler.go:22-151 | the map object becomes the layered and renamed configuration of its old contents |
| Scheduler.RenameCommutes | pkg/api/defaults-scheduler.go:141-150 | the renamed flags may as well be renamed before layering |
| Scheduler.UpgradeAbsorbs | pkg/api/defaults-scheduler.go:22-151 | for v1 <= v2, configuring at v1 and then at v2 equals configuring at v2, for every user map |
| SchedulerFlags.FinalLocks | pkg/api/defaults-scheduler.go:141-150 | from 1.28 on the lock flags go by their new names and replace what is there, and the old names are gone |
| SchedulerFlags.FinalGates | pkg/api/defaults-scheduler.go:22-138 | the final gates, each in terms of the user's gates and the version |
| CloudControllerManager.SetCloudControllerManagerConfig | pkg/api/defaults-cloud-controller-manager.go:13-160 | the map object becomes the layered configuration of its old contents |
| CloudControllerManager.UpgradeAbsorbs | pkg/api/defaults-cloud-controller-manager.go:48-160 | upgrade-path independence for every user map |
| CloudControllerManagerFlags.FinalFlags | pkg/api/defaults-cloud-controller-manager.go:13-60 | the flags that depend on the network and the master profile |
| CloudControllerManagerFlags.FinalGates | pkg/api/defaults-cloud-controller-manager.go:48-160 | the user's gates minus the removed ones |
| ControllerManager.SetControllerManagerConfig | pkg/api/defaults-controller-manager.go:14-233 | the map object becomes the layered configuration of its old contents |
| ControllerManager.UpgradeAbsorbsUnlessNodeExclusion | pkg/api/defaults-controller-manager.go:73-233 | upgrade-path independence holds iff ServiceNodeExclusion is not left over |
| ControllerManager.NodeExclusionSurvives | pkg/api/defaults-controller-manager.go:73-233 | the exception happens: 1.18 to 1.20 with an empty user map |
| Cluster.SubnetTaken | pkg/api/defaults-controller-manager.go:15-28 | a dual-stack cluster takes the second of its subnets, any other all of them |
| ControllerManagerFlags.FinalNetwork | pkg/api/defaults-controller-manager.go:14-36 | what the network decides is forced |
| ControllerManagerFlags.FinalCloud | pkg/api/defaults-controller-manager.go:38-49 | cluster name, cloud provider and its configuration, forced or the user's |
| ControllerManagerFlags.FinalDefaults | pkg/api/defaults-controller-manager.go:51-130 | the user's periods or those of the cloud, none once the flag is removed; credentials forced with roles |
| ControllerManagerFlags.FinalRemoved | pkg/api/defaults-controller-manager.go:85-130 | the user's word on a flag until the version that removed it |
| ControllerManagerFlags.FinalGates | pkg/api/defaults-controller-manager.go:73-233 | the final gates, each in terms of the user's gates and the version |
| ApiServer.SetAPIServerConfig | pkg/api/defaults-apiserver.go:15-197 | the map object becomes a function of its old contents, whatever the iteration order |
| ApiServer.OverrideAPIServerConfig | pkg/api/defaults-apiserver.go:216-318 | gates and admission plugins are pruned by version, nothing else changes |
| ApiServer.Precedence | pkg/api/defaults-apiserver.go:117-197 | apart from the five flags of the next rows: removed, else static, else the user's, else the default |
| ApiServer.FinalGates | pkg/api/defaults-apiserver.go:117-318 | the final gate string is canonical and binds exactly the user's gates over PodSecurity (1.25), minus those the version removed |
| ApiServer.FinalPlugins | pkg/api/defaults-apiserver.go:117-318 | the user's admission plugins or else the default ones, without PodSecurityPolicy from 1.25 on |
| ApiServer.PolicyRemoved | pkg/api/defaults-apiserver.go:308-318 | from 1.25 on no entry is PodSecurityPolicy in any case or spacing, and all other entries are there in their order |
| ApiServer.FinalAuditPolicy | pkg/api/defaults-apiserver.go:117-135 | the user's audit policy unless it is the old default path, which becomes the new one |
| ApiServer.FinalIssuer | pkg/api/defaults-apiserver.go:101-197 | from 1.20 on the user's issuer unless there is none or it is the old default; before that the user's only |
| ApiServer.FinalBindAddress | pkg/api/defaults-apiserver.go:16-197 | the bind address is forced, whatever the user sets |
| ApiServerFlags.FinalEtcdServers | pkg/api/defaults-apiserver.go:36-47 | where the store is, by who runs it |
| ApiServerFlags.FinalEncryption | pkg/api/defaults-apiserver.go:49-51 | the encryption of secrets, forced or the user's |
| ApiServerFlags.FinalCloudProvider | pkg/api/defaults-apiserver.go:53-57 | the cloud provider, unless another program is |
| ApiServerFlags.FinalAuthorization | pkg/api/defaults-apiserver.go:99-102 | the user's mode, or roles if they are enabled |
| ApiServerFlags.FinalSigningKey | pkg/api/defaults-apiserver.go:104-107 | the user's key, or one from 1.20.0-alpha.1 on |
| ApiServerFlags.FinalInsecurePort | pkg/api/defaults-apiserver.go:109-172 | the user's port, 0 before 1.20.0-alpha.0, none from 1.24 on |
| ApiServerFlags.FinalOidcIssuer | pkg/api/defaults-apiserver.go:84-94 | the user's issuer, or that of the directory |
| ApiServerFlags.FinalKubeletClient | pkg/api/defaults-apiserver.go:146-151 | the client certificate is forced, but removed unless kubelets are secured |
| ApiServerFlags.FinalRemoved | pkg/api/defaults-apiserver.go:146-190 | the flags that are gone, by version and cluster, whoever sets them |
| ApiServer.RewriteAbsorbed | pkg/api/defaults-apiserver.go:117-318 | an older version's rewrites leave no trace after a newer configuration |
| ApiServer.UpgradeAbsorbsUnlessInsecurePort | pkg/api/defaults-apiserver.go:117-318 | upgrade-path independence holds iff --insecure-port is not left over |
| ApiServer.InsecurePortSurvives | pkg/api/defaults-apiserver.go:117-318 | the exception happens: 1.19 to 1.21 with an empty user map |
| NodeLayering.NodeLayers.OrdinaryFlag | pkg/api/defaults-kubelet.go:142-402 | precedence of a flag that is not rewritten |
| NodeLayering.NodeLayers.PidsFlag | pkg/api/defaults-kubelet.go:172-184 | the pod-pids limit is -1 unless it is positive and the gate is found |
| NodeLayering.AtoiRange | pkg/api/defaults-kubelet.go:174 | the printed limit is read as a signed 64-bit number; beyond its range the reading fails |
| NodeLayering.Twice | pkg/api/defaults-kubelet.go:142-402 | configuring a profile twice equals once iff its process limit is not lost in between |
| Kubelet.RemoveKubeletFlags | pkg/api/defaults-kubelet.go:404-449 | exactly the flags removed up to the version disappear |
| Kubelet.SetKubeletConfig | pkg/api/defaults-kubelet.go:15-402 | cluster, master and each of n pools get a function of their own old map and the cluster's final map; no write to one map shows in another |
| Kubelet.MasterTaints | pkg/api/defaults-kubelet.go:328-336 | the control plane taint is appended iff some agent is Linux and it is not there; otherwise the user's taints or the cluster's |
| Kubelet.PoolTaints | pkg/api/defaults-kubelet.go:391-400 | the taint of the identity addon is appended iff the addon is enabled, the pool is not Windows and it is not there |
| KubeletFlags.FinalPlugin | pkg/api/defaults-kubelet.go:216-250 | kubenet forced where it applies, none from 1.24 on |
| KubeletFlags.FinalImage | pkg/api/defaults-kubelet.go:150-170 | on upgrade the version's image, otherwise the user's or that |
| KubeletFlags.FinalCloudProvider | pkg/api/defaults-kubelet.go:15-170 | external with the cloud controller manager, otherwise the user's or azure |
| KubeletFlags.FinalRuntime | pkg/api/defaults-kubelet.go:132-140 | the container runtime flag, until 1.27 |
| KubeletFlags.FinalMasquerade | pkg/api/defaults-kubelet.go:110-114 | the addresses that are not masqueraded, until 1.24 |
| KubeletFlags.FinalMaxPods | pkg/api/defaults-kubelet.go:116-119 | the number of pods by network plugin |
| KubeletFlags.FinalGates | pkg/api/defaults-kubelet.go:121-209 | the final gates of the cluster, each in terms of the user's gates and the version |
| KubeletFlags.MasterFlag | pkg/api/defaults-kubelet.go:283-327 | every flag of a master that no search decides, in terms of the user's and the cluster's map |
| KubeletFlags.PoolFlag | pkg/api/defaults-kubelet.go:340-390 | the same in a pool, with the forced flags of its operating system |
| Kubelet.ClusterTwice | pkg/api/defaults-kubelet.go:15-402 | the cluster map is a fixpoint after one pass, on upgrade too |
| Kubelet.MasterTwice | pkg/api/defaults-kubelet.go:283-337 | the master map is a fixpoint after one pass, on upgrade too |
| Kubelet.PrunedPidsGate | pkg/api/defaults-kubelet.go:365-391 | the pruned string contains the searched gate iff the raw string binds a gate of that suffix to a value that starts with true |
| Kubelet.PoolTwice | pkg/api/defaults-kubelet.go:340-401 | a pool map is a fixpoint after one pass, except on upgrade iff a positive limit meets a gate that the raw string contains but does not bind |
| Kubelet.PoolLosesGate | pkg/api/defaults-kubelet.go:365-391 | a gate string for which it is lost |
| Kubelet.ConfigureTwice | pkg/api/defaults-kubelet.go:15-402 | not upgrading, a second pass changes no map, for any number of pools, any user maps and any version |
| Kubelet.MergedNeverLose | pkg/api/defaults-kubelet.go:15-402 | a profile whose gates were merged and printed cannot lose the gate |
| KubeletUpgrade.UpgradeAbsorbsUnless | pkg/api/defaults-kubelet.go:15-280 | for v1 <= v2, the cluster flags configured at v1 and upgraded to v2 equal the user's own upgraded to v2 iff neither the node status frequency nor, from before 1.10, the process limit differs |
| KubeletUpgrade.LimitLeft | pkg/api/defaults-kubelet.go:142-280 | the process limit that a configuration leaves, in terms of the user's limit and gates |
| KubeletUpgrade.LimitIsLost | pkg/api/defaults-kubelet.go:404-410 | the exception happens: with a limit set in 1.9, the flags of 1.12 differ from those of an upgrade without it |
| KubeletUpgrade.FrequencyIsKept | pkg/api/defaults-kubelet.go:80-110 | if two tables differed, the older frequency would stay |
| KubeletInheritance.MasterAbsorbsUnless | pkg/api/defaults-kubelet.go:283-337 | for v1 <= v2, the masters' flags configured at v1 and upgraded to v2 equal their own flags upgraded to v2 iff no default gate of v2 lags behind and the process limit does not differ; each of the two in terms of the two flag maps |
| KubeletInheritance.PoolAbsorbsUnless | pkg/api/defaults-kubelet.go:340-401 | the same for an agent pool, whose gates are searched raw |
| KubeletInheritance.GatesLag | pkg/api/defaults-kubelet.go:15-401 | the older and the newer cluster map give a node the same gates iff every default gate of v2 is bound by the older map or removed in v2 |
| KubeletInheritance.LimitKept | pkg/api/defaults-kubelet.go:283-401 | exactly when the process limit of a node is the same |
| KubeletInheritance.BoundIsContained | pkg/api/defaults-kubelet.go:172-184 | a gate that a raw string binds is found by the search |
| KubeletInheritance.PodSecurityLags | pkg/api/defaults-kubelet.go:283-337 | the exception happens to every master without own gates: 1.24 to 1.25 |
| Reconcile.MergeStep | pkg/api/addons.go:1008-1030 | one turn of the container loop extends the closed form by one default |
| Reconcile.MergeTwice | pkg/api/addons.go:1008-1030 | filling in containers is idempotent for distinct default names |
| Reconcile.AssignTwice | pkg/api/addons.go:990-1045 | filling in one entry is idempotent |
| Reconcile.NamesKept | pkg/api/addons.go:796-803 | the user's entries come first in their order; the names are the union |
| Reconcile.ReconcileTwice | pkg/api/addons.go:796-902 | appending and synthesizing is a fixpoint |
| Reconcile.UserFieldsKept | pkg/api/addons.go:796-902 | whatever enables it, an entry that ends up enabled, has no raw data and is not replaced on upgrade keeps its non-empty fields, pools and configuration, except the two limits of the first entry if the autoscaler is given pools on upgrade and the command of a component on upgrade; of its images, only those change that a custom one or an upgrade changes; default containers follow |
| Reconcile.FinalValue | pkg/api/components.go:226-237 | each configuration entry of it: the default's iff it has one and the user's is missing or empty, or it is the command of a component on upgrade |
| Reconcile.OverwrittenMeans | pkg/api/addons.go:806-833 | which entries are replaced on upgrade, by name |
| Reconcile.LimitsMoveAway | pkg/api/addons.go:835-870 | the limits of the user's first entry are gone iff, on upgrade, the first autoscaler is enabled without pools and there is an agent pool |
| Reconcile.ScalerPools | pkg/api/addons.go:835-902 | in that case the autoscaler ends up with one pool for each agent pool, the limits in the first |
| Reconcile.PoolsMean | pkg/api/addons.go:843-866 | the pools one by one: the name of the profile, its count for both limits, or the given limit in the first |
| Reconcile.OldScalerConverted | pkg/api/addons.go:835-902 | an autoscaler in the old form, at the head of the list: limits gone, one pool with just them |
| Reconcile.ReplacedIsDefault | pkg/api/addons.go:806-833 | one that is replaced on upgrade ends up as the default |
| Reconcile.DefaultsTaken | pkg/api/addons.go:990-1045 | every empty field, missing container and missing or empty configuration entry comes from the default of the same name |
| Reconcile.OffIsBlank | pkg/api/addons.go:990-1045 | an entry that ends up off keeps nothing but its name, one with raw data nothing but these |
| Reconcile.AppendedInOrder | pkg/api/addons.go:1008-1030 | exactly the default containers that the user does not have follow, in their order |
| Reconcile.SecondContainerKept | pkg/api/addons.go:1008-1030 | of several containers with one name only the first is filled in |
| Reconcile.AddonsInOrder | pkg/api/addons.go:972-978 | exactly the default addons that the user does not list follow, in their order |
| Reconcile.OthersKept | pkg/api/addons.go:796-902 | without an upgrade an entry without a default, or not the first of its name, is left alone |
| Reconcile.EnabledAfter | pkg/api/addons.go:796-902 | an addon ends up enabled iff the user says so, or says nothing and the default does; except on upgrade, where the network monitor is off, a replaced addon is as its default, and one to be ensured is on if either says so |
| Reconcile.UpgradeOverridesUser | pkg/api/addons.go:806-823 | the exception happens: an addon that the user disabled is enabled |
| Reconcile.NotBothEnabled | pkg/api/addons.go:620-625 | kube-dns and coredns are both enabled in the result iff the user enabled both |
| Reconcile.CustomImageWins | pkg/api/components.go:112-162 | the exact condition under which a custom image ends up in container 0 of an entry that ends up enabled without raw data, for listed, shared and replaced entries, upgrading or not |
| Reconcile.ImageCrashes | pkg/api/addons.go:893-898 | a listed kube-proxy without containers makes the custom image crash |
| Reconcile.FinalNames | pkg/api/addons.go:796-902 | in every mode and with any images the user's entries come first in their order, and the names are the union |
| Reconcile.NoImages | pkg/api/addons.go:893-902 | without custom images and not upgrading, the whole is the plain reconciliation |
| Reconcile.EnsureStep | pkg/api/addons.go:806-823 | one turn of the upgrade loop replaces exactly the next name, in any order |
| Reconcile.LimitsMoved | pkg/api/addons.go:835-870 | the autoscaler's first pool gets its own limits iff they agree with those of the first entry of the list |
| Reconcile.LimitsLost | pkg/api/addons.go:847-858 | an autoscaler that comes second loses its limits |
| Addons.FillContainer | pkg/api/addons.go:1013-1028 | one container with its empty fields filled in |
| Addons.MergeContainers | pkg/api/addons.go:1008-1030 | the in-place loop equals the closed form, also when both slices are the same array; the defaults keep their value |
| Addons.FillConfig | pkg/api/addons.go:1035-1042 | the map loop equals the closed form in any order, also when both maps are the same |
| Addons.AssignDefaultVals | pkg/api/addons.go:990-1045 | the entry's new value and the unchanged default, under any sharing of the two |
| Addons.AppendIfNotPresent | pkg/api/addons.go:972-978 | the list is extended by the missing defaults, sharing their arrays and maps |
| Addons.KubernetesConfig.HonorImages | pkg/api/components.go:112-143 | crashes iff an entry concerned has no container; otherwise list and shared defaults hold the images |
| Addons.KubernetesConfig.Synthesize | pkg/api/components.go:158-162 | every entry is filled in from its default, defaults unchanged, for lists that share arrays with the defaults |
| Addons.KubernetesConfig.SetDefaults | pkg/api/addons.go:796-902 | append, replacements, autoscaler conversion and switching off on upgrade, custom images and synthesis together: exactly when it crashes, and the final values as a function of the old ones; for components the replacement comes after the images (pkg/api/components.go:105-162) |
| Addons.KubernetesConfig.EnsureEnabled | pkg/api/addons.go:806-823 | in any order, exactly the first entries of the given names that are not enabled become the defaults and share their arrays and maps |
| Addons.KubernetesConfig.ReplaceByDefault | pkg/api/addons.go:826-833 | one entry is replaced by the default of its name, with the sharing that results |
| Addons.KubernetesConfig.ConvertAutoscaler | pkg/api/addons.go:835-870 | the new pools and the limits removed from the first entry, which need not be the autoscaler; what the entries share with the defaults stays, and the defaults keep their values if they bind no limit |
| Addons.KubernetesConfig.MigrateDns | pkg/api/addons.go:796-884 | from any list, if coredns is among the defaults: after appending, both replacements and the autoscaler conversion coredns is still listed, so the branch that would index at -1 is not reached; and the values at that point |
| SecondPass.MergeImage | pkg/api/addons.go:1008-1030 | another image in container 0 shows in container 0 of the result only |
| SecondPass.FinalTwice | pkg/api/addons.go:796-902 | filling in the defaults again changes nothing iff no shared image is lost and the autoscaler is not converted once more, both of them on upgrade only |
| SecondPass.FinalTwiceWithoutUpgrade | pkg/api/addons.go:796-902 | without an upgrade it is a fixpoint, for addons and components, with any custom images |
| SecondPass.SecondFits | pkg/api/components.go:112-143 | the second pass crashes iff an entry with a custom image ended up off or with raw data and is not replaced first |
| SecondPass.OffThenCrash | pkg/api/components.go:112-143 | that happens to every unlisted default that is off and has a custom image |
| SecondPass.ImageLostLater | pkg/api/addons.go:796-902 | a custom image written by one upgrade into an unlisted default is lost by the next |
| Converters.Convert | pkg/api/convertertoapi.go:393-430 | the copy has the same values and owns its arrays and configuration maps |
| Converters.RoundTrip | pkg/api/converterfromapi.go:438-475 | there and back gives the same list, up to nil and empty, sharing no array and no configuration map |
| Network.KubernetesConfig.SetDefaults | pkg/api/convertertoapi.go:338-365 | the plugin and the policy become what the loaded pair stands for |
| Network.SettledOnce | pkg/api/convertertoapi.go:343-364 | the translation is a fixpoint after one pass and leaves exactly the settled pairs alone |
| Network.PolicyKept | pkg/api/convertertoapi.go:343-364 | a policy survives iff it is not one of the deprecated ways of naming a plugin |
| Network.LoadTwice | pkg/api/convertertoapi.go:338-365 | loading, saving and loading again gives the same pair, whatever becomes of the Windows pools |
| Scale.ScaledSize | cmd/scale.go:339-369 | a run ends with exactly the desired number of indexes |
| Scale.ScaledKeepsLow | cmd/scale.go:339-369 | scaling down keeps the lowest indexes; scaling up only adds higher ones |
| Scale.ScaleUpLeavesNoTrace | cmd/scale.go:426-432 | scaling up and then to any size equals scaling to that size at once |
| Scale.RunsEndAsDesired | cmd/scale.go:290-489 | after any sequence of runs the number is the last desired one, and VMs below every dip survive |
| Scale.ScaleCmd.CollectIndexes | cmd/scale.go:298-315 | the indexes are those of the pool's VMs, holes allowed, each with its VM |
| Scale.SortInts | cmd/scale.go:324-326 | a sorted permutation |
| Scale.ScaleCmd.SelectVMs | cmd/scale.go:366-370 | the VMs with the highest indexes, highest first; a crash iff the desired count is negative |
| Scale.NegativeCountCrashes | cmd/scale.go:366-370 | a count of -1 with one VM crashes |
| Scale.ScaleCmd.ScaleDown | cmd/scale.go:339-398 | on success the target set remains; only surplus VMs are drained, and VMs are deleted only after all of them were drained in this run; nothing happens without an API server |
| Scale.ScaleCmd.FindIndexes | cmd/scale.go:290-323 | fails iff a call failed, there is no VM or a name cannot be taken apart; ten attempts if the pool has no VM, else one |
| Scale.ScaleCmd.CountIsTop | cmd/scale.go:428-431 | the special case for a highest index of 0 makes no difference |
| Scale.ScaleCmd.Run | cmd/scale.go:290-522 | the outcome is exactly determined: refused or some call failed, crash, or done; done means the target indexes and count; failure leaves a part of the way, with no undrained VM deleted and no other VM drained; the API model changes exactly if the run is done, scaled something and should persist it |
| Drain.InvStep | cmd/scale.go:584-609 | every step of every goroutine keeps the channel invariant |
| Drain.SendNeverBlocks | cmd/scale.go:586-598 | in every interleaving a drained node's send finds room |
| Drain.NilMeansAllDrained | cmd/scale.go:601-608 | nil is returned only after all n nodes reported success |
| Drain.ErrorMeansFailure | cmd/scale.go:601-606 | an error is returned only if some node reported one |
| Drain.CloseAfterSends | cmd/scale.go:587-609 | without failures the close follows every send |
| Drain.NeverStuck | cmd/scale.go:584-609 | until the caller returns some step is possible |
| Drain.AlwaysReturns | cmd/scale.go:584-609 | every interleaving has at most 4n + 3 steps, and one that cannot be continued has returned |
| Drain.PanicsWithTwoNodes | cmd/scale.go:587-609 | some interleaving sends on the closed channel iff n >= 2 |
| Wait.WaitForPodsCondition | cmd/rotatecerts/wait.go:83-110 | nil iff, before any list error, the needed number of polls met the condition, not necessarily in a row, the last one included |
| Wait.WaitForNodesCondition | cmd/rotatecerts/wait.go:25-46 | the same for nodes |
| Wait.AllNodesReadyCondition | cmd/rotatecerts/wait.go:54-78 | holds iff every required name is listed and ready wherever it is listed |
| Wait.AllExpectedPodsReadyCondition | cmd/rotatecerts/wait.go:146-174 | holds iff the last pod listed under every expected name is ready |
| Rotation.CollectNodes | cmd/rotate_certs.go:346-371 | fails iff some operating system is unknown |
| Rotation.DeleteMasters | cmd/rotate_certs.go:372-376 | exactly the nodes with the control plane prefix are deleted |
| Rotation.RotateCertsCmd.Record | cmd/rotate_certs.go:250-296 | an allowed action keeps the trace safe, and nothing follows a failure |
| Rotation.RotateCertsCmd.ExecStepsSequence | cmd/rotate_certs.go:555-565 | the steps of a phase succeed on a node in order, or the trace ends at the first failure |
| Rotation.RotateCertsCmd.ExecOnNodes | cmd/rotate_certs.go:471-542 | in any node order, success means that every step of the phase succeeded on every node |
| Rotation.RotateCertsCmd.RotateMasters | cmd/rotate_certs.go:485-513 | success passes the stages cp_certs, reboot, running, ready, cp_proxy |
| Rotation.RotateCertsCmd.RotateMasterCerts | cmd/rotate_certs.go:411-437 | success passes all control plane stages |
| Rotation.RotateCertsCmd.RotateAgentCerts | cmd/rotate_certs.go:439-469 | success passes all agent stages |
| Rotation.RotateCertsCmd.PauseClusterAutoscaler | cmd/rotatecerts/operations.go:24-62 | patches iff the deployment exists with replicas, and owes a resume iff the patch succeeded |
| Rotation.RotateCertsCmd.Run | cmd/rotate_certs.go:250-296 | every run is safe, stops at the first failure, pauses the autoscaler before anything else in the cluster and resumes it exactly once with its old count as the last event, and reports success iff nothing failed; then all stages passed |
| Rotation.CertsGenerated | cmd/rotate_certs.go:250-256 | nothing but the backup happens before the new certificates were generated, and no file is copied before it was collected |
| Rotation.ConnectFirst | cmd/rotate_certs.go:250-260 | nothing is asked of the cluster before the state was saved, the certificates were written and the client was created |
| Rotation.OpeningFirst | cmd/rotate_certs.go:250-281 | no node is touched before that and, unless forced, before the masters and then the control plane were ready |
| Rotation.MasterOrder | cmd/rotate_certs.go:411-513 | each of the five steps on a master comes after all earlier steps, restarts and waits for every master, in this order; no other step runs on a master |
| Rotation.RestartOrder | cmd/rotate_certs.go:485-503 | only masters in availability sets are restarted, after every master took over its certificates, and waited for after the restarts |
| Rotation.ListOrder | cmd/rotate_certs.go:429-442 | the nodes are listed after the masters were cleaned up and everything was ready |
| Rotation.ProxyAfterAllMasters | cmd/rotate_certs.go:485-513 | no cp_proxy before every master has its certificates, was restarted and seen running (availability sets), and all were ready |
| Rotation.AgentOrder | cmd/rotate_certs.go:411-542 | each step on an agent comes after all of that on every master and after the earlier steps on every agent; which steps run depends on its operating system |
| Rotation.CertsBeforePods | cmd/rotate_certs.go:515-528 | on a Linux agent the pods are deleted after agent_certs, which comes after the earlier steps on that agent |
| Rotation.TokensOrder | cmd/rotate_certs.go:439-469 | the tokens are renewed after all agents are done, with the pods of the Linux ones deleted, and ready |
| Rotation.AgentBeforeModel | cmd/rotate_certs.go:411-553 | the API model is written after the last wait, and that comes after everything on every master and agent, action by action |
| Rotation.MastersBeforeModel | cmd/rotate_certs.go:411-553 | the same in a cluster without agents |
| Rotation.RunInOrder | cmd/rotate_certs.go:250-296 | a run that passed all stages did everything in order, down to the API model and the removal of the output |
| Rotation.OutputRemovedLast | cmd/rotate_certs.go:544-553 | the output is removed only after the API model was written |
| Rotation.ModelIsWrittenLast | cmd/rotate_certs.go:411-553 | the API model is overwritten only after every action of every stage before it succeeded, with or without agents, and nothing but the last wait failed |
| Rotation.PodsAfterCerts | cmd/rotate_certs.go:515-528 | kube-proxy pods are deleted on a node only after its new certificates |
| Rotation.RotatedUnlessPrefixed | cmd/rotate_certs.go:346-377 | a complete run touches a listed node outside the masters iff its name lacks the control plane prefix |
| Rotation.MasterPoolSkipped | cmd/rotate_certs.go:372-376 | a cluster whose agent pool is skipped by a complete run |
| Certs.PutUint32 | pkg/api/defaults.go:1001-1005 | big-endian encoding is inverted by decoding |
| Certs.Uint32Injective | pkg/api/defaults.go:1000 | different addresses have different numbers |
| Certs.MasterIPs | pkg/api/defaults.go:984-1006 | the list has three addresses and one for each further master |
| Certs.FirstAddresses | pkg/api/defaults.go:978-992 | the first master, localhost, and the load balancer: at 255.10 of the network in scale sets, otherwise 10 further on in the last byte |
| Certs.MasterAddress | pkg/api/defaults.go:994-1006 | the number of each further master: so many addresses further on for each, modulo 2^32 |
| Certs.DistinctUnlessWrapped | pkg/api/defaults.go:994-1006 | master addresses are pairwise distinct iff no multiple of the offset up to count - 1 vanishes modulo 2^32 |
| Certs.DistinctInRange | pkg/api/defaults.go:994-1006 | they are distinct for a positive offset whose multiples stay below 2^32 |
| Certs.LoadBalancerCollides | pkg/api/defaults.go:986-992 | exactly when the internal load balancer has the address of a master |
| Certs.CertsAlreadyPresent | pkg/api/defaults.go:1106-1132 | which groups of pairs are complete, peers included |
| Certs.CollectIPs | pkg/api/defaults.go:984-1006 | the loop computes the address list |
| Certs.ContainerService.SetDefaultCerts | pkg/api/defaults.go:958-1087 | success, failure and no-op each with the resulting profile and addresses |
| Certs.CompletePresent | pkg/api/defaults.go:958-1087 | after success all groups are present |
| Certs.CompleteTwice | pkg/api/defaults.go:958-1087 | a second call changes nothing, whatever the generators return |
| Certs.EveryPairHasItsCa | pkg/api/defaults.go:1011-1085 | every pair of a completed profile was issued by its authority or supplied together with it |
| Certs.RetryAfterFailure | pkg/api/defaults.go:1011-1087 | after a failure that stored a new authority, a successful retry has that property iff no leaf group was supplied |
| Certs.FailThenRetry | pkg/api/defaults.go:958-1087 | the same of two calls in a row on one container service |
| Certs.StrangerKept | pkg/api/defaults.go:1054-1085 | a profile for which the retry keeps a pair of another authority |
| Upgrades.GetVersionsGt | pkg/api/common/versions.go:548-562 | the versions above the bound, prereleases as asked, in their order and as often as they occur |
| Upgrades.GetVersionsBetween | pkg/api/common/versions.go:586-601 | the versions strictly or weakly between the bounds; of a list without repetitions each once and in its order, else as often as it occurs in one list times the other |
| Upgrades.GetMinVersion | pkg/api/common/versions.go:605-611 | a least element |
| Upgrades.GetKubernetesAvailableUpgradeVersions | pkg/api/orchestrators.go:182-205 | exactly the offered versions, in the order of the supported ones |
| Upgrades.OfferedReleases | pkg/api/orchestrators.go:182-205 | a release is offered iff it is supported, greater, of the same major, and its minor is at most max(current + 1, minor of the least greater version) |
| Upgrades.NothingOffered | pkg/api/orchestrators.go:182-205 | nothing is offered iff nothing greater of the major is supported |
| Upgrades.PathsEnd | pkg/api/orchestrators.go:166-205 | a sequence of upgrades is no longer than the number of greater supported versions |
| Upgrades.PathsEndAtNewest | pkg/api/orchestrators.go:166-205 | continued until nothing is offered it ends at the newest supported version of the major |
| StrictJson.CreateJSONFieldMap | pkg/api/strictjson.go:64-80 | the map finds the last field of a key in any case; it fails iff a type is no struct |
| StrictJson.CheckMapKeys | pkg/api/strictjson.go:23-62 | accepts iff all keys are known here and below, in any member order; no crash on struct types; ends because the document gets smaller |
| StrictJson.AcceptedIffFineEverywhere | pkg/api/strictjson.go:23-62 | acceptance means that no object reachable by any path has an unknown key |

## Left out

- Strings of versions: versions are parsed values, so an unparsable version (which the code takes for the zero version) and a minor version near 2^64 are not modelled.
- Layering.ReplaceFlags: promises nothing when a new name is also an old one or two old names share a new one, because the result then depends on the order of the map.
- Upgrades.GetMinVersion: the least version is found directly instead of by sorting the list.
- Letters outside ASCII: lower-casing is that of ASCII.
- Flag and image tables that depend on cloud environments: they are parameters of the configurations (`Facts`, `ApiFacts`, `KubeletFacts`).
- Kubelet.SetKubeletConfig: requires that no two profiles share a map, as the loaded API model guarantees; what aliasing of profiles would do is not stated.
- Nil and empty maps or slices: they are told apart only where the code behaves differently.
- Addons.AppendIfNotPresent: a growing slice gets a new backing array; spare capacity of an old one is not modelled.
- Addons.KubernetesConfig.SetDefaults: requires that no default binds `min-nodes` or `max-nodes`, as none in the tables does. The DNS step (`MigrateDns`), which changes nothing, is stated on its own. The back-compatibility blocks after the synthesis (pkg/api/addons.go:904-969) are not part of the model; they too decide about enabled addons (pod-security-policy also without an upgrade, calico, kube-proxy).
- Which image field of the configuration belongs to which component at which version (pkg/api/components.go:116-139) is a parameter: a map from names to custom images.
- Addons.KubernetesConfig.ConvertAutoscaler: the printed number of nodes of each profile is a parameter; the log lines are not modelled.
- Converters.Convert: pools are values here, so sharing the slice of pools or the maps in it is not excluded.
- Converters.RoundTrip: says nothing about sharing pools, for the same reason.
- A list of addons that is nil: the code then shares the whole default slice, which has the same effect as appending every default to an empty list.
- Virtual machine scale sets and the naming of Windows VMs in scaling: the former is a single call, the latter only changes how an index is read off a name.
- Scale.ScaleCmd.Run: listing, draining, deleting and deploying are arbitrary operations that keep their contracts; waiting times, template contents and the printing of nodes are not modelled.
- Rotation.RotateCertsCmd.Run: one event stands for all file copies to a node and one for the whole rotation of service account tokens; argument checks and the loading of the API model come before the run and are not part of it.
- Rotation.RotateCertsCmd.ExecOnNodes: the five loops over the nodes differ only in their steps and are one method with a phase as parameter.
- Wait.WaitForPodsCondition: the number of polls before the deadline is arbitrary; time itself is not modelled. The waits for daemon sets and deployments have the same loop. The one for VMs (cmd/rotatecerts/wait.go:273-301) has another, which swallows lookup errors and needs one success; it is an action that may fail, as the others are in `Rotation`.
- Certs.ContainerService.SetDefaultCerts: keys and certificates are opaque text; what makes a certificate valid is the generators' business, as are the DNS names in it.
- The other field-by-field copying in the converters: no property beyond the copied field.
- The parsing of JSON text before its keys are checked.
- ARM, SSH and Kubernetes clients, credentials, templates, telemetry, logging and files.
