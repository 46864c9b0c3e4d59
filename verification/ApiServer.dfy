// pkg/api/defaults-apiserver.go
module ApiServer {
  import opened GoMaps
  import opened Gates
  import opened Options
  import opened Strings
  import opened Versions
  import opened Layering
  import opened Cluster
  import opened CommaLists

  datatype Etcd = NoMaster | LocalEtcd | CosmosEtcd(uri: string)

  datatype Aad = Aad(serverAppID: string, issuerHost: string, tenantID: string)

  datatype ApiFacts = ApiFacts(
    serviceCidr: string,
    etcdVersion: string,
    etcd: Etcd,
    encryptionAtRest: bool,
    useCloudControllerManager: bool,
    enableAggregatedAPIs: bool,
    aad: Option<Aad>,
    enableRbac: bool,
    enableSecureKubelet: bool,
    podSecurityPolicyAddon: bool,
    ipv6Only: bool)

  const V120A0 := PreRelease(1, 20, 0, [Alpha("alpha"), Num(0)])
  const V120A1 := PreRelease(1, 20, 0, [Alpha("alpha"), Num(1)])
  const V124 := Release(1, 24, 0)

  const AUDIT_POLICY := "--audit-policy-file"
  const OLD_AUDIT_POLICY := "/etc/kubernetes/manifests/audit-policy.yaml"
  const ISSUER := "--service-account-issuer"
  const OLD_ISSUER := "kubernetes.default.svc"
  const NEW_ISSUER := "https://kubernetes.default.svc.cluster.local"
  const SIGNING_KEY := "--service-account-signing-key-file"
  const PLUGINS := "--enable-admission-plugins"
  const BIND_ADDRESS := "--bind-address"
  const INSECURE_PORT := "--insecure-port"

  function If(condition: bool, entries: Entries): Entries {
    if condition then entries else map[]
  }

  function StaticConfig(facts: ApiFacts): Entries {
    ServingConfig(facts)
    + CertificateConfig()
    + EtcdConfig(facts.etcd)
    + If(facts.encryptionAtRest, map["--encryption-provider-config" := "/etc/kubernetes/encryption-config.yaml"])
    + If(!facts.useCloudControllerManager,
         map["--cloud-provider" := "azure", "--cloud-config" := "/etc/kubernetes/azure.json"])
  }

  function ServingConfig(facts: ApiFacts): Entries {
    map["--bind-address" := "0.0.0.0",
        "--advertise-address" := "<advertiseAddr>",
        "--allow-privileged" := "true",
        "--audit-log-path" := "/var/log/kubeaudit/audit.log",
        "--secure-port" := "443",
        "--service-account-lookup" := "true",
        "--service-cluster-ip-range" := facts.serviceCidr,
        "--storage-backend" := facts.etcdVersion,
        "--enable-bootstrap-token-auth" := "true"]
  }

  function EtcdConfig(etcd: Etcd): Entries {
    match etcd
    case NoMaster => map[]
    case LocalEtcd => map["--etcd-cafile" := "/etc/kubernetes/certs/ca.crt", "--etcd-servers" := "https://127.0.0.1:2379"]
    case CosmosEtcd(uri) => map["--etcd-servers" := "https://" + uri + ":2379"]
  }

  function CertificateConfig(): Entries {
    map["--etcd-certfile" := "/etc/kubernetes/certs/etcdclient.crt",
        "--etcd-keyfile" := "/etc/kubernetes/certs/etcdclient.key",
        "--tls-cert-file" := "/etc/kubernetes/certs/apiserver.crt",
        "--tls-private-key-file" := "/etc/kubernetes/certs/apiserver.key",
        "--client-ca-file" := "/etc/kubernetes/certs/ca.crt",
        "--service-account-key-file" := "/etc/kubernetes/certs/apiserver.key",
        "--kubelet-client-certificate" := "/etc/kubernetes/certs/client.crt",
        "--kubelet-client-key" := "/etc/kubernetes/certs/client.key"]
  }

  const TLS_CIPHERS := "TLS_ECDHE_ECDSA_WITH_AES_128_GCM_SHA256,TLS_ECDHE_RSA_WITH_AES_128_GCM_SHA256,TLS_ECDHE_RSA_WITH_AES_256_GCM_SHA384,TLS_ECDHE_ECDSA_WITH_AES_256_GCM_SHA384"

  function AggregationConfig(): Entries {
    map["--requestheader-client-ca-file" := "/etc/kubernetes/certs/proxy-ca.crt",
        "--proxy-client-cert-file" := "/etc/kubernetes/certs/proxy.crt",
        "--proxy-client-key-file" := "/etc/kubernetes/certs/proxy.key",
        "--requestheader-allowed-names" := "",
        "--requestheader-extra-headers-prefix" := "X-Remote-Extra-",
        "--requestheader-group-headers" := "X-Remote-Group",
        "--requestheader-username-headers" := "X-Remote-User"]
  }

  function AadConfig(aad: Aad): Entries {
    map["--oidc-username-claim" := "oid",
        "--oidc-groups-claim" := "groups",
        "--oidc-client-id" := "spn:" + aad.serverAppID,
        "--oidc-issuer-url" := "https://" + aad.issuerHost + "/" + aad.tenantID + "/"]
  }

  // The defaults that do not depend on the version.
  function StableDefaults(facts: ApiFacts): Entries {
    PlainDefaults()
    + RewrittenDefaults(facts)
    + If(facts.enableAggregatedAPIs, AggregationConfig())
    + (match facts.aad case None => map[] case Some(aad) => AadConfig(aad))
    + If(facts.enableRbac, map["--authorization-mode" := "Node,RBAC"])
  }

  function PlainDefaults(): Entries {
    map["--admission-control-config-file" := "/etc/kubernetes/apiserver-admission-control.yaml",
        "--anonymous-auth" := "false",
        "--audit-log-maxage" := "30",
        "--audit-log-maxbackup" := "10",
        "--audit-log-maxsize" := "100",
        "--profiling" := "false",
        "--request-timeout" := "1m",
        "--tls-cipher-suites" := TLS_CIPHERS,
        "--tls-min-version" := "VersionTLS12",
        "--v" := "2"]
  }

  function RewrittenDefaults(facts: ApiFacts): Entries {
    map["--audit-policy-file" := "/etc/kubernetes/addons/audit-policy.yaml",
        "--enable-admission-plugins" := if facts.podSecurityPolicyAddon then "ExtendedResourceToleration,PodSecurityPolicy"
                                        else "ExtendedResourceToleration"]
  }

  function IssuerDefaults(): Entries {
    map["--service-account-issuer" := "https://kubernetes.default.svc.cluster.local",
        "--service-account-signing-key-file" := "/etc/kubernetes/certs/apiserver.key"]
  }

  function DefaultConfig(version: Version, facts: ApiFacts): Entries {
    StableDefaults(facts)
    + If(Ge(version, V120A1), IssuerDefaults())
    + If(!Ge(version, V120A0), map["--insecure-port" := "0"])
  }

  function VersionFlags(version: Version): seq<string> {
    When(Ge(version, V124), ["--address", "--insecure-bind-address", "--port", "--insecure-port"])
    + When(Ge(version, V125), ["--service-account-api-audiences"])
    + When(Ge(version, V127), ["--master-service-namespace"])
  }

  function RemovedFlags(version: Version, facts: ApiFacts): seq<string> {
    When(!facts.enableSecureKubelet, ["--kubelet-client-certificate", "--kubelet-client-key"])
    + ["--admission-control", "--repair-malformed-updates"]
    + VersionFlags(version)
    + When(facts.ipv6Only, ["--advertise-address"])
  }

  // Removal comes after forcing, so a forced flag that is removed is not forced after all.
  function Forced(version: Version, facts: ApiFacts): Entries {
    (StaticConfig(facts) - ToSet(RemovedFlags(version, facts))) + If(facts.ipv6Only, map[BIND_ADDRESS := "::"])
  }

  function LayersFor(version: Version, facts: ApiFacts): Layers {
    Layers(DefaultConfig(version, facts), ToSet(RemovedFlags(version, facts)), PodSecurityGate(version),
           Forced(version, facts), InvalidFeatureGates(version, []))
  }

  // The three rewrites of single flags that the layers leave out.
  function ReplaceOldAudit(user: Entries): Entries {
    if Get(user, AUDIT_POLICY) == OLD_AUDIT_POLICY
    then user[AUDIT_POLICY := "/etc/kubernetes/addons/audit-policy.yaml"] else user
  }

  function ReplaceOldIssuer(version: Version, m: Entries): Entries {
    if Ge(version, V120A1) && Get(m, ISSUER) == OLD_ISSUER then m[ISSUER := NEW_ISSUER] else m
  }

  function DropPolicyPlugin(version: Version, m: Entries): Entries {
    if Ge(version, V125) then m[PLUGINS := RemoveFrom(Get(m, PLUGINS), ["PodSecurityPolicy"])] else m
  }

  function Rewrite(version: Version, m: Entries): Entries {
    DropPolicyPlugin(version, ReplaceOldIssuer(version, m))
  }

  // The apiserver flags as a function of version, cluster and user flags.
  ghost function Config(version: Version, facts: ApiFacts, user: Entries): Entries {
    Rewrite(version, LayersFor(version, facts).Apply(ReplaceOldAudit(user)))
  }

  // ---- The code ----

  function FilledSoFar(user: Entries, defaults: Entries, todo: set<string>): Entries {
    (map key | key in defaults.Keys - todo :: defaults[key]) + (if AUDIT_POLICY in todo then user else ReplaceOldAudit(user))
  }

  function FillOne(m: Entries, defaults: Entries, key: string): Entries
    requires key in defaults
  {
    if key !in m || (key == AUDIT_POLICY && m[key] == OLD_AUDIT_POLICY) then m[key := defaults[key]] else m
  }

  lemma FillStarts(user: Entries, defaults: Entries)
    requires AUDIT_POLICY in defaults
    ensures FilledSoFar(user, defaults, defaults.Keys) == user
    ensures FilledSoFar(user, defaults, {}) == defaults + ReplaceOldAudit(user)
  {
  }

  lemma FillStep(user: Entries, defaults: Entries, todo: set<string>, key: string)
    requires key in todo && todo <= defaults.Keys
    requires AUDIT_POLICY in defaults && defaults[AUDIT_POLICY] == "/etc/kubernetes/addons/audit-policy.yaml"
    ensures FilledSoFar(user, defaults, todo - {key}) == FillOne(FilledSoFar(user, defaults, todo), defaults, key)
  {
  }

  // for key, val := range defaults, with the manual override of --audit-policy-file
  method FillDefaults(config: StringMap, defaults: Entries)
    requires AUDIT_POLICY in defaults && defaults[AUDIT_POLICY] == "/etc/kubernetes/addons/audit-policy.yaml"
    modifies config
    ensures config.entries == defaults + ReplaceOldAudit(old(config.entries))
  {
    hide FilledSoFar;
    ghost var user := config.entries;
    var todo := defaults.Keys;
    FillStarts(user, defaults);
    while todo != {}
      invariant todo <= defaults.Keys
      invariant config.entries == FilledSoFar(user, defaults, todo)
      decreases |todo|
    {
      var key :| key in todo;
      FillStep(user, defaults, todo, key);
      todo := todo - {key};
      if key !in config.entries {
        config.Set(key, defaults[key]);
      } else if key == AUDIT_POLICY && config.entries[key] == OLD_AUDIT_POLICY {
        config.Set(key, defaults[key]);
      }
    }
  }

  method DropRemovedFlags(config: StringMap, version: Version, facts: ApiFacts)
    modifies config
    ensures config.entries == (old(config.entries) - ToSet(RemovedFlags(version, facts)))
                              + If(facts.ipv6Only, map[BIND_ADDRESS := "::"])
  {
    hide Ge, ToSet, VersionFlags, If;
    ghost var before := config.entries;
    ghost var gone: seq<string> := [];
    NothingDropped(before);
    if !facts.enableSecureKubelet {
      gone := Drop(config, before, gone, ["--kubelet-client-certificate", "--kubelet-client-key"]);
    }
    gone := Drop(config, before, gone, ["--admission-control", "--repair-malformed-updates"]);
    DropRemovedVersionFlags(config, before, gone, version);
    gone := gone + VersionFlags(version);
    assert gone + When(facts.ipv6Only, ["--advertise-address"]) == RemovedFlags(version, facts);
    BindToIPv6(config, before, gone, facts.ipv6Only);
  }

  method BindToIPv6(config: StringMap, ghost before: Entries, ghost gone: seq<string>, ipv6Only: bool)
    requires config.entries == before - ToSet(gone)
    modifies config
    ensures config.entries == (before - ToSet(gone + When(ipv6Only, ["--advertise-address"])))
                              + If(ipv6Only, map[BIND_ADDRESS := "::"])
  {
    if ipv6Only {
      config.Set(BIND_ADDRESS, "::");
      config.DeleteAll(["--advertise-address"]);
      BindInstead(before, gone);
    } else {
      assert gone + [] == gone;
      assert config.entries == config.entries + map[];
    }
  }

  lemma BindInstead(before: Entries, gone: seq<string>)
    ensures (before - ToSet(gone))[BIND_ADDRESS := "::"] - ToSet(["--advertise-address"])
         == (before - ToSet(gone + ["--advertise-address"])) + map[BIND_ADDRESS := "::"]
  {
    ToSetConcat(gone, ["--advertise-address"]);
    assert |BIND_ADDRESS| == 14 && |"--advertise-address"| == 19;
  }

  method DropRemovedVersionFlags(config: StringMap, ghost before: Entries, ghost gone: seq<string>, version: Version)
    requires config.entries == before - ToSet(gone)
    modifies config
    ensures config.entries == before - ToSet(gone + VersionFlags(version))
  {
    hide Ge, ToSet;
    ghost var now := gone;
    if Ge(version, V124) {
      now := Drop(config, before, now, ["--address", "--insecure-bind-address", "--port", "--insecure-port"]);
    }
    if Ge(version, V125) {
      now := Drop(config, before, now, ["--service-account-api-audiences"]);
    }
    if Ge(version, V127) {
      now := Drop(config, before, now, ["--master-service-namespace"]);
    }
    assert now == gone + VersionFlags(version);
  }

  method SetAPIServerConfig(k: KubernetesConfig, version: Version, facts: ApiFacts)
    modifies k`apiServerConfig, k.apiServerConfig
    ensures k.apiServerConfig != null
    ensures old(k.apiServerConfig) != null ==> k.apiServerConfig == old(k.apiServerConfig)
    ensures k.apiServerConfig.entries == Config(version, facts, old(EntriesOf(k.apiServerConfig)))
  {
    hide DefaultConfig, StaticConfig, RemovedFlags, InvalidFeatureGates, Combine, Remove, Layers.Apply, RemoveFrom;
    ghost var user := EntriesOf(k.apiServerConfig);
    AuditIsDefault(version, facts);
    if k.apiServerConfig == null {
      k.apiServerConfig := new StringMap(DefaultConfig(version, facts));
    } else {
      FillDefaults(k.apiServerConfig, DefaultConfig(version, facts));
    }
    var config := k.apiServerConfig;
    assert config.entries == DefaultConfig(version, facts) + ReplaceOldAudit(user);
    AddDefaultFeatureGates(config, version, Some(V125), "PodSecurity=true");
    config.Overwrite(StaticConfig(facts));
    DropRemovedFlags(config, version, facts);
    ReplaceIssuer(config, version);
    OverrideAPIServerConfig(config, version);
    StepsCommute(version, facts, ReplaceOldAudit(user));
  }

  method ReplaceIssuer(config: StringMap, version: Version)
    modifies config
    ensures config.entries == ReplaceOldIssuer(version, old(config.entries))
  {
    if Ge(version, V120A1) && Get(config.entries, ISSUER) == OLD_ISSUER {
      config.Set(ISSUER, NEW_ISSUER);
    }
  }

  method OverrideAPIServerConfig(config: StringMap, version: Version)
    modifies config
    ensures var gates := Remove(GatesOf(old(config.entries)), InvalidFeatureGates(version, []));
            config.entries == DropPolicyPlugin(version, old(config.entries)[FEATURE_GATES := gates])
  {
    hide InvalidFeatureGates, Remove, RemoveFrom;
    RemoveInvalidFeatureGates(config, InvalidFeatureGates(version, []));
    if Ge(version, V125) {
      var curPlugins := Get(config.entries, PLUGINS);
      var newPlugins := RemoveFromCommaSeparatedList(curPlugins, ["PodSecurityPolicy"]);
      config.Set(PLUGINS, newPlugins);
    }
  }

  lemma AuditIsDefault(version: Version, facts: ApiFacts)
    ensures var defaults := DefaultConfig(version, facts);
            AUDIT_POLICY in defaults && defaults[AUDIT_POLICY] == "/etc/kubernetes/addons/audit-policy.yaml"
  {
    hide Ge;
    hide StableDefaults;
    AuditIsStable(facts);
    assert |AUDIT_POLICY| == 19 && |INSECURE_PORT| == 15 && |SIGNING_KEY| == 34 && |ISSUER| == 24;
  }

  lemma AuditIsStable(facts: ApiFacts)
    ensures var defaults := StableDefaults(facts);
            AUDIT_POLICY in defaults && defaults[AUDIT_POLICY] == "/etc/kubernetes/addons/audit-policy.yaml"
  {
    hide AggregationConfig, AadConfig, PlainDefaults;
    OptionalLeavesAudit(facts);
    assert |AUDIT_POLICY| == 19 && |"--authorization-mode"| == 20;
  }

  lemma OptionalLeavesAudit(facts: ApiFacts)
    ensures AUDIT_POLICY !in AggregationConfig()
    ensures facts.aad.Some? ==> AUDIT_POLICY !in AadConfig(facts.aad.value)
  {
    assert AUDIT_POLICY[2] == 'a';
  }

  // Forcing first and removing afterwards comes to removing first and forcing what is left.
  lemma DropAfterForce(filled: Entries, gates: string, static_: Entries, removed: set<string>, last: Entries)
    requires FEATURE_GATES !in static_ && FEATURE_GATES !in removed
    ensures ((filled[FEATURE_GATES := gates] + static_) - removed) + last
         == (filled - removed)[FEATURE_GATES := gates] + ((static_ - removed) + last)
    ensures GatesOf(filled) == GatesOf(filled - removed)
  {
  }

  lemma IssuerCommutes(version: Version, m: Entries, gates: string)
    ensures ReplaceOldIssuer(version, m)[FEATURE_GATES := gates] == ReplaceOldIssuer(version, m[FEATURE_GATES := gates])
    ensures GatesOf(ReplaceOldIssuer(version, m)) == GatesOf(m)
  {
    assert FEATURE_GATES != ISSUER;
  }

  lemma StepsCommute(version: Version, facts: ApiFacts, m: Entries)
    ensures var filled := DefaultConfig(version, facts) + m;
            var gated := filled[FEATURE_GATES := Combine([GatesOf(filled), DefaultGate(version, Some(V125), "PodSecurity=true")])];
            var dropped := ((gated + StaticConfig(facts)) - ToSet(RemovedFlags(version, facts)))
                           + If(facts.ipv6Only, map[BIND_ADDRESS := "::"]);
            var issued := ReplaceOldIssuer(version, dropped);
            var gates := Remove(GatesOf(issued), InvalidFeatureGates(version, []));
            DropPolicyPlugin(version, issued[FEATURE_GATES := gates]) ==
            Rewrite(version, LayersFor(version, facts).Apply(m))
  {
    hide DefaultConfig, StaticConfig, RemovedFlags, InvalidFeatureGates, Combine, Remove, Layers.Apply, RemoveFrom,
         ReplaceOldIssuer, DropPolicyPlugin, Ge;
    var layers := LayersFor(version, facts);
    var filled := layers.defaults + m;
    var gate := DefaultGate(version, Some(V125), "PodSecurity=true");
    var last := If(facts.ipv6Only, map[BIND_ADDRESS := "::"]);
    NoGateFlag(version, facts);
    layers.Steps(m);
    DropAfterForce(filled, Combine([GatesOf(filled), gate]), StaticConfig(facts), layers.removed, last);
    assert [GatesOf(filled)] + [gate] == [GatesOf(filled), gate];
    var dropped := ((filled[FEATURE_GATES := Combine([GatesOf(filled), gate])] + StaticConfig(facts)) - layers.removed) + last;
    IssuerCommutes(version, dropped, Remove(GatesOf(dropped), layers.invalid));
  }

  // ---- No layer mentions the gates ----

  lemma StaticLeavesGates(facts: ApiFacts)
    ensures FEATURE_GATES !in StaticConfig(facts)
  {
    hide ServingConfig, CertificateConfig, EtcdConfig;
    ServingLeavesGates(facts);
    CertificatesLeaveGates();
    EtcdLeavesGates(facts.etcd);
    assert |FEATURE_GATES| == 15 && |"--encryption-provider-config"| == 28 && |"--cloud-config"| == 14;
    assert FEATURE_GATES[2] == 'f';
  }

  lemma ServingLeavesGates(facts: ApiFacts)
    ensures FEATURE_GATES !in ServingConfig(facts)
  {
    assert |FEATURE_GATES| == 15 && FEATURE_GATES[2] == 'f';
  }

  lemma CertificatesLeaveGates()
    ensures FEATURE_GATES !in CertificateConfig()
  {
    assert |FEATURE_GATES| == 15 && FEATURE_GATES[2] == 'f';
  }

  lemma EtcdLeavesGates(etcd: Etcd)
    ensures FEATURE_GATES !in EtcdConfig(etcd)
  {
  }

  lemma DefaultLeavesGates(version: Version, facts: ApiFacts)
    ensures FEATURE_GATES !in DefaultConfig(version, facts)
  {
    hide Ge, StableDefaults;
    assert FEATURE_GATES !in IssuerDefaults();
    StableLeavesGates(facts);
  }

  lemma StableLeavesGates(facts: ApiFacts)
    ensures FEATURE_GATES !in StableDefaults(facts)
  {
    hide AggregationConfig, AadConfig, RewrittenDefaults, PlainDefaults;
    OptionalLeavesGates(facts);
    assert |FEATURE_GATES| == 15 && |"--authorization-mode"| == 20;
  }

  lemma OptionalLeavesGates(facts: ApiFacts)
    ensures FEATURE_GATES !in AggregationConfig() && FEATURE_GATES !in RewrittenDefaults(facts)
    ensures FEATURE_GATES !in PlainDefaults()
    ensures facts.aad.Some? ==> FEATURE_GATES !in AadConfig(facts.aad.value)
  {
    assert |FEATURE_GATES| == 15 && FEATURE_GATES[2] == 'f';
  }

  lemma RemovedLeavesGates(version: Version, facts: ApiFacts)
    ensures FEATURE_GATES !in ToSet(RemovedFlags(version, facts))
  {
    assert |FEATURE_GATES| == 15 && FEATURE_GATES[2] == 'f';
  }

  lemma NoGateFlag(version: Version, facts: ApiFacts)
    ensures FEATURE_GATES !in StaticConfig(facts)
    ensures FEATURE_GATES !in ToSet(RemovedFlags(version, facts))
    ensures LayersFor(version, facts).LeavesGates()
  {
    hide DefaultConfig, StaticConfig, RemovedFlags, InvalidFeatureGates;
    StaticLeavesGates(facts);
    DefaultLeavesGates(version, facts);
    RemovedLeavesGates(version, facts);
    assert FEATURE_GATES != BIND_ADDRESS;
  }

  // ---- What each flag ends up as ----

  predicate Rewritten(key: string) {
    key == FEATURE_GATES || key == PLUGINS || key == AUDIT_POLICY || key == ISSUER || key == BIND_ADDRESS
  }

  lemma NamesDistinct()
    ensures FEATURE_GATES != PLUGINS && FEATURE_GATES != AUDIT_POLICY && FEATURE_GATES != ISSUER && FEATURE_GATES != BIND_ADDRESS
    ensures PLUGINS != AUDIT_POLICY && PLUGINS != ISSUER && PLUGINS != BIND_ADDRESS && AUDIT_POLICY != ISSUER
    ensures AUDIT_POLICY != BIND_ADDRESS && ISSUER != BIND_ADDRESS && !Rewritten(INSECURE_PORT)
  {
    assert |FEATURE_GATES| == 15 && |PLUGINS| == 26 && |AUDIT_POLICY| == 19 && |ISSUER| == 24 && |BIND_ADDRESS| == 14;
    assert |INSECURE_PORT| == 15 && INSECURE_PORT[2] == 'i' && FEATURE_GATES[2] == 'f';
  }

  // Apart from five flags, the documented precedence: removed, else forced, else the user's,
  // else the default.
  lemma Precedence(version: Version, facts: ApiFacts, user: Entries, key: string)
    requires !Rewritten(key)
    ensures Get?(Config(version, facts, user), key) ==
            if key in RemovedFlags(version, facts) then None
            else if key in StaticConfig(facts) then Some(StaticConfig(facts)[key])
            else if key in user then Some(user[key])
            else Get?(DefaultConfig(version, facts), key)
  {
    hide DefaultConfig, StaticConfig, RemovedFlags, InvalidFeatureGates, Layers.Apply, RemoveFrom, Ge;
    NoGateFlag(version, facts);
    LayersFor(version, facts).ApplyFlag(ReplaceOldAudit(user), key);
  }

  // No layer removes or forces the three flags that are rewritten in place.
  lemma RewrittenInPlace(version: Version, facts: ApiFacts)
    ensures forall key :: key in {PLUGINS, AUDIT_POLICY, ISSUER} ==>
              key !in ToSet(RemovedFlags(version, facts)) && key !in Forced(version, facts)
    ensures PLUGINS in DefaultConfig(version, facts) && AUDIT_POLICY in DefaultConfig(version, facts)
    ensures Get(DefaultConfig(version, facts), AUDIT_POLICY) != OLD_AUDIT_POLICY
    ensures Ge(version, V120A1) ==> Get(DefaultConfig(version, facts), ISSUER) == NEW_ISSUER
    ensures !Ge(version, V120A1) ==> ISSUER !in DefaultConfig(version, facts)
    ensures DefaultConfig(version, facts)[PLUGINS] == StableDefaults(facts)[PLUGINS]
  {
    hide DefaultConfig, StaticConfig, RemovedFlags, Ge, StableDefaults;
    NamesDistinct();
    NotRemoved(version, facts);
    NotStatic(facts);
    InDefaults(version, facts);
  }

  lemma NotRemoved(version: Version, facts: ApiFacts)
    ensures PLUGINS !in ToSet(RemovedFlags(version, facts)) && AUDIT_POLICY !in ToSet(RemovedFlags(version, facts))
    ensures ISSUER !in ToSet(RemovedFlags(version, facts))
  {
    hide VersionFlags;
    NotVersionFlags(version);
    assert PLUGINS[2] == 'e' && AUDIT_POLICY[2] == 'a' && AUDIT_POLICY[3] == 'u' && ISSUER[2] == 's';
  }

  lemma NotVersionFlags(version: Version)
    ensures PLUGINS !in VersionFlags(version) && AUDIT_POLICY !in VersionFlags(version) && ISSUER !in VersionFlags(version)
  {
    hide Ge;
    assert PLUGINS[2] == 'e' && |AUDIT_POLICY| == 19 && |ISSUER| == 24;
  }

  lemma NotStatic(facts: ApiFacts)
    ensures PLUGINS !in StaticConfig(facts) && AUDIT_POLICY !in StaticConfig(facts) && ISSUER !in StaticConfig(facts)
  {
    hide ServingConfig, CertificateConfig, EtcdConfig;
    NotServing(facts);
    NotCertificate();
    NotEtcd(facts.etcd);
    assert |PLUGINS| == 26 && |AUDIT_POLICY| == 19 && |ISSUER| == 24;
    assert |"--encryption-provider-config"| == 28 && |"--cloud-config"| == 14 && |"--cloud-provider"| == 16;
  }

  lemma NotServing(facts: ApiFacts)
    ensures PLUGINS !in ServingConfig(facts) && AUDIT_POLICY !in ServingConfig(facts) && ISSUER !in ServingConfig(facts)
  {
    assert PLUGINS[9] == 'a' && PLUGINS[2] == 'e';
    assert |AUDIT_POLICY| == 19 && AUDIT_POLICY[2] == 'a' && AUDIT_POLICY[3] == 'u';
    assert |ISSUER| == 24 && ISSUER[18] == 'i' && ISSUER[2] == 's';
  }

  lemma NotCertificate()
    ensures PLUGINS !in CertificateConfig() && AUDIT_POLICY !in CertificateConfig() && ISSUER !in CertificateConfig()
  {
    PluginsNotCertificate();
    AuditNotCertificate();
    IssuerNotCertificate();
  }

  lemma PluginsNotCertificate()
    ensures PLUGINS !in CertificateConfig()
  {
    assert PLUGINS[3] == 'n';
  }

  lemma AuditNotCertificate()
    ensures AUDIT_POLICY !in CertificateConfig()
  {
    assert AUDIT_POLICY[2] == 'a';
  }

  lemma IssuerNotCertificate()
    ensures ISSUER !in CertificateConfig()
  {
    assert ISSUER[2] == 's' && ISSUER[18] == 'i';
  }

  lemma NotEtcd(etcd: Etcd)
    ensures PLUGINS !in EtcdConfig(etcd) && AUDIT_POLICY !in EtcdConfig(etcd) && ISSUER !in EtcdConfig(etcd)
  {
    assert PLUGINS[3] == 'n' && AUDIT_POLICY[2] == 'a' && ISSUER[2] == 's';
  }

  lemma InDefaults(version: Version, facts: ApiFacts)
    ensures PLUGINS in DefaultConfig(version, facts) && AUDIT_POLICY in DefaultConfig(version, facts)
    ensures Get(DefaultConfig(version, facts), AUDIT_POLICY) != OLD_AUDIT_POLICY
    ensures Ge(version, V120A1) ==> Get(DefaultConfig(version, facts), ISSUER) == NEW_ISSUER
    ensures !Ge(version, V120A1) ==> ISSUER !in DefaultConfig(version, facts)
    ensures DefaultConfig(version, facts)[PLUGINS] == StableDefaults(facts)[PLUGINS]
  {
    hide Ge, StableDefaults;
    NamesDistinct();
    StableNames(facts);
    AuditIsStable(facts);
    assert |"--service-account-signing-key-file"| == 34 && |ISSUER| == 24 && |PLUGINS| == 26 && |AUDIT_POLICY| == 19;
    assert |OLD_AUDIT_POLICY| == 43 && |"/etc/kubernetes/addons/audit-policy.yaml"| == 40;
  }

  lemma StableNames(facts: ApiFacts)
    ensures PLUGINS in StableDefaults(facts) && ISSUER !in StableDefaults(facts) && INSECURE_PORT !in StableDefaults(facts)
  {
    hide AggregationConfig, AadConfig, PlainDefaults;
    hide RewrittenDefaults;
    OptionalNames(facts);
    PlainNames();
    RewrittenNames(facts);
    assert |PLUGINS| == 26 && |ISSUER| == 24 && |INSECURE_PORT| == 15 && |"--authorization-mode"| == 20;
  }

  lemma RewrittenNames(facts: ApiFacts)
    ensures PLUGINS in RewrittenDefaults(facts)
    ensures ISSUER !in RewrittenDefaults(facts) && INSECURE_PORT !in RewrittenDefaults(facts)
  {
    assert |PLUGINS| == 26 && |ISSUER| == 24 && |INSECURE_PORT| == 15 && |AUDIT_POLICY| == 19;
  }

  lemma PlainNames()
    ensures ISSUER !in PlainDefaults() && INSECURE_PORT !in PlainDefaults() && AUDIT_POLICY !in PlainDefaults()
  {
    IssuerNotPlain();
    PortNotPlain();
    AuditNotPlain();
  }

  lemma SigningKeyNotStable(facts: ApiFacts)
    ensures SIGNING_KEY !in StableDefaults(facts)
  {
    hide AggregationConfig, AadConfig, PlainDefaults, RewrittenDefaults;
    SigningKeyNotPlain();
    SigningKeyNotOptional(facts);
    assert |SIGNING_KEY| == 34 && |"--authorization-mode"| == 20;
  }

  lemma NoLongPlain(key: string)
    requires |key| == 34
    ensures key !in PlainDefaults()
  {
  }

  lemma NoLongAggregation(key: string)
    requires |key| == 34
    ensures key !in AggregationConfig()
  {
  }

  lemma SigningKeyNotPlain()
    ensures SIGNING_KEY !in PlainDefaults()
  {
    hide PlainDefaults;
    NoLongPlain(SIGNING_KEY);
  }

  lemma SigningKeyNotOptional(facts: ApiFacts)
    ensures SIGNING_KEY !in AggregationConfig() && SIGNING_KEY !in RewrittenDefaults(facts)
    ensures facts.aad.Some? ==> SIGNING_KEY !in AadConfig(facts.aad.value)
  {
    hide AggregationConfig, AadConfig;
    SigningKeyNotAggregation();
    if facts.aad.Some? {
      SigningKeyNotAad(facts.aad.value);
    }
    assert SIGNING_KEY[2] == 's';
  }

  lemma SigningKeyNotAggregation()
    ensures SIGNING_KEY !in AggregationConfig()
  {
    hide AggregationConfig;
    NoLongAggregation(SIGNING_KEY);
  }

  lemma SigningKeyNotAad(aad: Aad)
    ensures SIGNING_KEY !in AadConfig(aad)
  {
    assert SIGNING_KEY[2] == 's';
  }

  lemma IssuerNotPlain()
    ensures ISSUER !in PlainDefaults()
  {
    assert ISSUER[2] == 's';
  }

  lemma PortNotPlain()
    ensures INSECURE_PORT !in PlainDefaults()
  {
    assert INSECURE_PORT[2] == 'i';
  }

  lemma AuditNotPlain()
    ensures AUDIT_POLICY !in PlainDefaults()
  {
    assert |AUDIT_POLICY| == 19 && AUDIT_POLICY[8] == 'p';
  }

  lemma OptionalNames(facts: ApiFacts)
    ensures ISSUER !in AggregationConfig() && INSECURE_PORT !in AggregationConfig()
    ensures facts.aad.Some? ==> ISSUER !in AadConfig(facts.aad.value) && INSECURE_PORT !in AadConfig(facts.aad.value)
  {
    assert |ISSUER| == 24 && ISSUER[2] == 's' && |INSECURE_PORT| == 15 && INSECURE_PORT[2] == 'i';
  }

  // ---- When upgrading leaves a trace ----

  lemma RemovedFlagsGrow(older: Version, newer: Version, facts: ApiFacts)
    requires Ge(newer, older)
    ensures ToSet(RemovedFlags(older, facts)) <= ToSet(RemovedFlags(newer, facts))
  {
    hide ToSet, VersionFlags;
    VersionFlagsGrow(older, newer);
    var a := When(!facts.enableSecureKubelet, ["--kubelet-client-certificate", "--kubelet-client-key"])
             + ["--admission-control", "--repair-malformed-updates"];
    var b := When(facts.ipv6Only, ["--advertise-address"]);
    ToSetConcat(a + VersionFlags(older), b);
    ToSetConcat(a, VersionFlags(older));
    ToSetConcat(a + VersionFlags(newer), b);
    ToSetConcat(a, VersionFlags(newer));
  }

  lemma VersionFlagsGrow(older: Version, newer: Version)
    requires Ge(newer, older)
    ensures ToSet(VersionFlags(older)) <= ToSet(VersionFlags(newer))
  {
    hide Ge, ToSet;
    forall threshold | threshold in {V124, V125, V127} && Ge(older, threshold)
      ensures Ge(newer, threshold)
    {
      GeMonotone(older, newer, threshold);
    }
    var a, b, c := ["--address", "--insecure-bind-address", "--port", "--insecure-port"],
                   ["--service-account-api-audiences"], ["--master-service-namespace"];
    WhenGrow4(Ge(older, V124), Ge(newer, V124), a, Ge(older, V125), Ge(newer, V125), b,
              Ge(older, V127), Ge(newer, V127), c, false, false, []);
    assert When(Ge(older, V124), a) + When(Ge(older, V125), b) + When(Ge(older, V127), c) + When(false, []) == VersionFlags(older);
    assert When(Ge(newer, V124), a) + When(Ge(newer, V125), b) + When(Ge(newer, V127), c) + When(false, []) == VersionFlags(newer);
  }

  lemma LayersFollow(older: Version, newer: Version, facts: ApiFacts)
    requires Ge(newer, older)
    ensures Succeeds(LayersFor(older, facts), LayersFor(newer, facts))
  {
    hide DefaultConfig, StaticConfig, RemovedFlags, InvalidFeatureGates, ToSet, Ge;
    NoGateFlag(older, facts);
    NoGateFlag(newer, facts);
    RemovedFlagsGrow(older, newer, facts);
    InvalidGatesGrow(older, newer, []);
  }

  lemma PortRemoved(version: Version, facts: ApiFacts)
    ensures INSECURE_PORT in ToSet(RemovedFlags(version, facts)) <==> Ge(version, V124)
    ensures INSECURE_PORT !in Forced(version, facts)
  {
    hide Ge, StaticConfig;
    PortNotStatic(facts);
    assert |INSECURE_PORT| == 15 && INSECURE_PORT[2] == 'i';
  }

  lemma PortNotStatic(facts: ApiFacts)
    ensures INSECURE_PORT !in StaticConfig(facts)
  {
    hide ServingConfig, CertificateConfig, EtcdConfig;
    PortNotServing(facts);
    PortNotCertificate();
    PortNotEtcd(facts.etcd);
    assert |INSECURE_PORT| == 15 && |"--encryption-provider-config"| == 28 && |"--cloud-config"| == 14;
    assert |"--cloud-provider"| == 16;
  }

  lemma PortNotServing(facts: ApiFacts)
    ensures INSECURE_PORT !in ServingConfig(facts)
  {
    assert INSECURE_PORT[2] == 'i';
  }

  lemma PortNotCertificate()
    ensures INSECURE_PORT !in CertificateConfig()
  {
    assert INSECURE_PORT[2] == 'i';
  }

  lemma PortNotEtcd(etcd: Etcd)
    ensures INSECURE_PORT !in EtcdConfig(etcd)
  {
    assert INSECURE_PORT[2] == 'i';
  }

  lemma DefaultFor(version: Version, facts: ApiFacts, key: string)
    ensures Get?(DefaultConfig(version, facts), key) ==
            if key == INSECURE_PORT then (if Ge(version, V120A0) then None else Some("0"))
            else if key == ISSUER || key == SIGNING_KEY then (if Ge(version, V120A1) then Some(IssuerDefaults()[key]) else None)
            else Get?(StableDefaults(facts), key)
  {
    hide Ge, StableDefaults;
    StableNames(facts);
    SigningKeyNotStable(facts);
    assert |INSECURE_PORT| == 15 && |ISSUER| == 24 && |SIGNING_KEY| == 34;
  }

  lemma OnlyInsecurePortSticks(older: Version, newer: Version, facts: ApiFacts, m: Entries, key: string)
    requires Ge(newer, older)
    ensures FlagSticks(LayersFor(older, facts), LayersFor(newer, facts), m, key)
            <==> key == INSECURE_PORT && key !in m && !Ge(older, V120A0) && Ge(newer, V120A0) && !Ge(newer, V124)
  {
    hide DefaultConfig, StaticConfig, RemovedFlags, InvalidFeatureGates, ToSet, Ge, Forced, StableDefaults;
    PortRemoved(newer, facts);
    DefaultFor(older, facts, key);
    DefaultFor(newer, facts, key);
    if Ge(older, V120A1) {
      GeMonotone(older, newer, V120A1);
    }
    if Ge(older, V120A0) {
      GeMonotone(older, newer, V120A0);
    }
  }

  lemma LayersAbsorb(older: Version, newer: Version, facts: ApiFacts, m: Entries)
    requires Ge(newer, older)
    ensures LayersFor(newer, facts).Apply(LayersFor(older, facts).Apply(m)) == LayersFor(newer, facts).Apply(m)
            <==> !(INSECURE_PORT !in m && !Ge(older, V120A0) && Ge(newer, V120A0) && !Ge(newer, V124))
  {
    hide Layers.Apply, Ge, Sticks, FlagSticks, DefaultConfig, Forced, RemovedFlags, InvalidFeatureGates, Parse;
    var layers, layers' := LayersFor(older, facts), LayersFor(newer, facts);
    LayersFollow(older, newer, facts);
    Absorption(layers, layers', m);
    forall gate
      ensures !Sticks(layers, layers', Parse(GatesOf(m)), gate)
    {
      PodSecurityKept(layers, layers', older, newer, Parse(GatesOf(m)), gate);
    }
    forall key
      ensures FlagSticks(layers, layers', m, key)
              <==> key == INSECURE_PORT && key !in m && !Ge(older, V120A0) && Ge(newer, V120A0) && !Ge(newer, V124)
    {
      OnlyInsecurePortSticks(older, newer, facts, m, key);
    }
    assert FlagSticks(layers, layers', m, INSECURE_PORT)
      <==> INSECURE_PORT !in m && !Ge(older, V120A0) && Ge(newer, V120A0) && !Ge(newer, V124);
  }

  // ---- The rewrites are absorbed too ----

  lemma RewriteAt(version: Version, m: Entries, key: string)
    ensures Get?(Rewrite(version, m), key) ==
            if key == PLUGINS && Ge(version, V125) then Some(RemoveFrom(Get(m, PLUGINS), ["PodSecurityPolicy"]))
            else if key == ISSUER && Ge(version, V120A1) && Get(m, ISSUER) == OLD_ISSUER then Some(NEW_ISSUER)
            else Get?(m, key)
  {
    hide RemoveFrom, Ge;
    NamesDistinct();
  }

  // Applying newer layers after an older rewrite and then rewriting is as if the older
  // rewrite had not happened, for a flag map that has all defaults in place.
  lemma RewriteAbsorbedAt(older: Version, newer: Version, facts: ApiFacts, m: Entries, key: string)
    requires Ge(newer, older) && PLUGINS in m
    ensures Get?(Rewrite(newer, LayersFor(newer, facts).Apply(Rewrite(older, m))), key)
         == Get?(Rewrite(newer, LayersFor(newer, facts).Apply(m)), key)
  {
    hide Layers.Apply, Ge, DefaultConfig, Forced, RemovedFlags, InvalidFeatureGates, Rewrite, RemoveFrom, Keys, ToSet, LayersFor;
    var layers, m' := LayersFor(newer, facts), Rewrite(older, m);
    NamesDistinct();
    NoGateFlag(newer, facts);
    RewriteAt(newer, layers.Apply(m'), key);
    RewriteAt(newer, layers.Apply(m), key);
    if key == FEATURE_GATES {
      RewriteAt(older, m, key);
      GatesPresent(layers, m);
      GatesPresent(layers, m');
      layers.GatesUntouched(m);
      layers.GatesUntouched(m');
    } else {
      OlderRewriteGone(older, newer, facts, m, key);
    }
  }

  lemma OlderRewriteGone(older: Version, newer: Version, facts: ApiFacts, m: Entries, key: string)
    requires Ge(newer, older) && PLUGINS in m && key != FEATURE_GATES
    requires LayersFor(newer, facts).LeavesGates()
    ensures Get?(Rewrite(newer, LayersFor(newer, facts).Apply(Rewrite(older, m))), key)
         == Get?(Rewrite(newer, LayersFor(newer, facts).Apply(m)), key)
  {
    hide Layers.Apply, Ge, DefaultConfig, Forced, RemovedFlags, InvalidFeatureGates, Rewrite, RemoveFrom, Keys, ToSet;
    var layers, m' := LayersFor(newer, facts), Rewrite(older, m);
    NamesDistinct();
    RewriteAt(newer, layers.Apply(m'), key);
    RewriteAt(newer, layers.Apply(m), key);
    RewriteAt(older, m, key);
    RewrittenInPlace(newer, facts);
    layers.ApplyFlag(m, key);
    layers.ApplyFlag(m', key);
    if key == PLUGINS && Ge(older, V125) {
      GeMonotone(older, newer, V125);
      RemoveFromIdempotent(Get(m, PLUGINS), ["PodSecurityPolicy"]);
    }
    if key == ISSUER && Ge(older, V120A1) {
      GeMonotone(older, newer, V120A1);
      assert |NEW_ISSUER| == 44 && |OLD_ISSUER| == 22;
    }
  }

  lemma RewriteAbsorbed(older: Version, newer: Version, facts: ApiFacts, m: Entries)
    requires Ge(newer, older) && PLUGINS in m
    ensures Rewrite(newer, LayersFor(newer, facts).Apply(Rewrite(older, m)))
         == Rewrite(newer, LayersFor(newer, facts).Apply(m))
  {
    hide Rewrite, Layers.Apply, LayersFor;
    forall key
      ensures Get?(Rewrite(newer, LayersFor(newer, facts).Apply(Rewrite(older, m))), key)
           == Get?(Rewrite(newer, LayersFor(newer, facts).Apply(m)), key)
    {
      RewriteAbsorbedAt(older, newer, facts, m, key);
    }
    EntriesExtensional(Rewrite(newer, LayersFor(newer, facts).Apply(Rewrite(older, m))),
                       Rewrite(newer, LayersFor(newer, facts).Apply(m)));
  }

  // After one configuration the plugins are set and the audit policy is not the old one.
  lemma PluginsConfigured(version: Version, facts: ApiFacts, m: Entries)
    ensures PLUGINS in LayersFor(version, facts).Apply(m)
  {
    hide Layers.Apply, Ge, DefaultConfig, Forced, RemovedFlags, InvalidFeatureGates, ToSet;
    NamesDistinct();
    NoGateFlag(version, facts);
    RewrittenInPlace(version, facts);
    LayersFor(version, facts).ApplyFlag(m, PLUGINS);
  }

  lemma AuditAt(version: Version, facts: ApiFacts, m: Entries)
    ensures Get?(Rewrite(version, LayersFor(version, facts).Apply(m)), AUDIT_POLICY)
         == if AUDIT_POLICY in m then Some(m[AUDIT_POLICY]) else Get?(DefaultConfig(version, facts), AUDIT_POLICY)
  {
    hide Layers.Apply, Ge, DefaultConfig, Forced, RemovedFlags, InvalidFeatureGates, Rewrite, ToSet, Rewritten;
    NamesDistinct();
    NoGateFlag(version, facts);
    RewrittenInPlace(version, facts);
    LayersFor(version, facts).ApplyFlag(m, AUDIT_POLICY);
    RewriteAt(version, LayersFor(version, facts).Apply(m), AUDIT_POLICY);
  }

  lemma AuditConfigured(version: Version, facts: ApiFacts, user: Entries)
    ensures ReplaceOldAudit(Config(version, facts, user)) == Config(version, facts, user)
  {
    hide Layers.Apply, DefaultConfig, LayersFor, Rewrite;
    AuditAt(version, facts, ReplaceOldAudit(user));
    OldAuditReplaced(user);
    RewrittenInPlace(version, facts);
  }

  lemma OldAuditReplaced(user: Entries)
    ensures Get(ReplaceOldAudit(user), AUDIT_POLICY) != OLD_AUDIT_POLICY
  {
    assert |OLD_AUDIT_POLICY| == 43 && |"/etc/kubernetes/addons/audit-policy.yaml"| == 40;
  }

  lemma RewriteKeepsPort(older: Version, newer: Version, facts: ApiFacts, user: Entries)
    requires Rewrite(newer, LayersFor(newer, facts).Apply(LayersFor(older, facts).Apply(ReplaceOldAudit(user))))
          == Rewrite(newer, LayersFor(newer, facts).Apply(ReplaceOldAudit(user)))
    ensures Get?(LayersFor(newer, facts).Apply(LayersFor(older, facts).Apply(ReplaceOldAudit(user))), INSECURE_PORT)
         == Get?(LayersFor(newer, facts).Apply(ReplaceOldAudit(user)), INSECURE_PORT)
  {
    hide Rewrite, Layers.Apply, LayersFor, Ge;
    NamesDistinct();
    var m := ReplaceOldAudit(user);
    RewriteAt(newer, LayersFor(newer, facts).Apply(LayersFor(older, facts).Apply(m)), INSECURE_PORT);
    RewriteAt(newer, LayersFor(newer, facts).Apply(m), INSECURE_PORT);
  }

  lemma PortTellsApart(older: Version, newer: Version, facts: ApiFacts, m: Entries)
    requires Ge(newer, older)
    ensures (Get?(LayersFor(newer, facts).Apply(LayersFor(older, facts).Apply(m)), INSECURE_PORT)
             == Get?(LayersFor(newer, facts).Apply(m), INSECURE_PORT))
            <==> !(INSECURE_PORT !in m && !Ge(older, V120A0) && Ge(newer, V120A0) && !Ge(newer, V124))
  {
    hide Layers.Apply, Ge, DefaultConfig, Forced, RemovedFlags, InvalidFeatureGates, FlagSticks, ToSet;
    NamesDistinct();
    LayersFollow(older, newer, facts);
    AbsorbedFlag(LayersFor(older, facts), LayersFor(newer, facts), m, INSECURE_PORT);
    OnlyInsecurePortSticks(older, newer, facts, m, INSECURE_PORT);
  }

  // Configuring at the older version first leaves no trace.
  ghost predicate Absorbed(older: Version, newer: Version, facts: ApiFacts, user: Entries) {
    Config(newer, facts, Config(older, facts, user)) == Config(newer, facts, user)
  }

  // Configuring at an older version first and then at a newer one gives what configuring at
  // the newer version gives, except that --insecure-port=0 survives when it was a default of
  // the older version, is neither a default of nor removed by the newer one, and the user
  // never set it.
  lemma UpgradeAbsorbsUnlessInsecurePort(older: Version, newer: Version, facts: ApiFacts, user: Entries)
    requires Ge(newer, older)
    ensures Absorbed(older, newer, facts, user)
            <==> !(!Ge(older, V120A0) && Ge(newer, V120A0) && !Ge(newer, V124) && INSECURE_PORT !in user)
  {
    hide Rewrite, Layers.Apply, LayersFor, Ge;
    NamesDistinct();
    var m := ReplaceOldAudit(user);
    assert INSECURE_PORT in m <==> INSECURE_PORT in user;
    PluginsConfigured(older, facts, m);
    AuditConfigured(older, facts, user);
    RewriteAbsorbed(older, newer, facts, LayersFor(older, facts).Apply(m));
    LayersAbsorb(older, newer, facts, m);
    PortTellsApart(older, newer, facts, m);
    if Absorbed(older, newer, facts, user) {
      RewriteKeepsPort(older, newer, facts, user);
    }
  }

  // The exception is real: an upgrade from 1.19 to 1.21 keeps a flag that 1.21 would not set.
  lemma InsecurePortSurvives(facts: ApiFacts)
    ensures !Absorbed(Release(1, 19, 0), Release(1, 21, 0), facts, map[])
  {
    hide Absorbed;
    UpgradeAbsorbsUnlessInsecurePort(Release(1, 19, 0), Release(1, 21, 0), facts, map[]);
  }

  // ---- The five rewritten flags, in terms of the user's ----

  // The user's gates over the default one, minus the gates that the version removed; and the
  // string is the printed form of just that.
  lemma FinalGates(version: Version, facts: ApiFacts, user: Entries, gate: string)
    ensures var gates := GatesOf(Config(version, facts, user));
            && gates == Print(Parse(gates))
            && Get?(Parse(gates), gate) ==
               if gate in InvalidFeatureGates(version, []) then None
               else if gate in Parse(GatesOf(user)) then Some(Parse(GatesOf(user))[gate])
               else if gate == POD_SECURITY && Ge(version, V125) then Some("true")
               else None
  {
    hide Layers.Apply, Ge, DefaultConfig, Forced, RemovedFlags, InvalidFeatureGates, Rewrite, RemoveFrom, Parse, Print, Meaning;
    var layers, m := LayersFor(version, facts), ReplaceOldAudit(user);
    NamesDistinct();
    NoGateFlag(version, facts);
    RewriteAt(version, layers.Apply(m), FEATURE_GATES);
    GatesPresent(layers, m);
    layers.ApplyGates(m);
    PodSecurityMeaning(version);
  }

  function ChosenPlugins(facts: ApiFacts, user: Entries): string {
    if PLUGINS in user then user[PLUGINS]
    else if facts.podSecurityPolicyAddon then "ExtendedResourceToleration,PodSecurityPolicy"
    else "ExtendedResourceToleration"
  }

  // The user's plugins or the default ones, without PodSecurityPolicy from 1.25 on.
  lemma FinalPlugins(version: Version, facts: ApiFacts, user: Entries)
    ensures Get?(Config(version, facts, user), PLUGINS)
         == Some(if Ge(version, V125) then RemoveFrom(ChosenPlugins(facts, user), ["PodSecurityPolicy"])
                 else ChosenPlugins(facts, user))
  {
    hide Layers.Apply, Ge, DefaultConfig, StableDefaults, Forced, RemovedFlags, InvalidFeatureGates, Rewrite, RemoveFrom, ToSet;
    var layers, m := LayersFor(version, facts), ReplaceOldAudit(user);
    NamesDistinct();
    NoGateFlag(version, facts);
    RewrittenInPlace(version, facts);
    StablePlugins(facts);
    layers.ApplyFlag(m, PLUGINS);
    RewriteAt(version, layers.Apply(m), PLUGINS);
  }

  // From 1.25 on no entry of the final list is PodSecurityPolicy, however it is written; all
  // other entries are there, in their order.
  lemma PolicyRemoved(version: Version, facts: ApiFacts, user: Entries)
    ensures var plugins := Get(Config(version, facts, user), "--enable-admission-plugins");
            Ge(version, Release(1, 25, 0)) ==>
              && (forall e :: e in Split(plugins, ',') ==> ToLower(TrimSpace(e)) != "podsecuritypolicy")
              && exists at, left :: Left(Split(ChosenPlugins(facts, user), ','), ["PodSecurityPolicy"], at, left) && plugins == Join(left, ',')
  {
    hide Config, RemoveFrom, Split, Join, Left, TrimSpace, ToLower, ChosenPlugins, Ge;
    FinalPlugins(version, facts, user);
    RemoveFromMeans(ChosenPlugins(facts, user), ["PodSecurityPolicy"]);
    PolicyName();
    if Ge(version, V125) {
      var plugins := Get(Config(version, facts, user), "--enable-admission-plugins");
      forall e | e in Split(plugins, ',')
        ensures ToLower(TrimSpace(e)) != "podsecuritypolicy"
      {
        NoneLeft(ChosenPlugins(facts, user), ["PodSecurityPolicy"], e);
        assert "PodSecurityPolicy" in ["PodSecurityPolicy"];
      }
    }
  }

  lemma PolicyName()
    ensures ToLower(TrimSpace("PodSecurityPolicy")) == "podsecuritypolicy"
  {
    hide TrimSpace, ToLower;
    var a, b := "PodSecurityPolicy", "podsecuritypolicy";
    assert a[0] == 'P' && a[1] == 'o' && a[2] == 'd' && a[3] == 'S' && a[4] == 'e' && a[5] == 'c' && a[6] == 'u'
      && a[7] == 'r' && a[8] == 'i' && a[9] == 't' && a[10] == 'y' && a[11] == 'P' && a[12] == 'o' && a[13] == 'l'
      && a[14] == 'i' && a[15] == 'c' && a[16] == 'y';
    assert b[0] == 'p' && b[1] == 'o' && b[2] == 'd' && b[3] == 's' && b[4] == 'e' && b[5] == 'c' && b[6] == 'u'
      && b[7] == 'r' && b[8] == 'i' && b[9] == 't' && b[10] == 'y' && b[11] == 'p' && b[12] == 'o' && b[13] == 'l'
      && b[14] == 'i' && b[15] == 'c' && b[16] == 'y';
    NothingToTrim(a);
    LowerEach(a, b);
  }

  lemma StablePlugins(facts: ApiFacts)
    ensures PLUGINS in StableDefaults(facts)
    ensures StableDefaults(facts)[PLUGINS] == ChosenPlugins(facts, map[])
  {
    hide PlainDefaults, AggregationConfig, AadConfig, RewrittenDefaults;
    PluginsRewritten(facts);
    PluginsNotAggregation();
    if facts.aad.Some? {
      PluginsNotAad(facts.aad.value);
    }
    assert |PLUGINS| == 26 && |"--authorization-mode"| == 20;
  }

  lemma PluginsRewritten(facts: ApiFacts)
    ensures PLUGINS in RewrittenDefaults(facts) && RewrittenDefaults(facts)[PLUGINS] == ChosenPlugins(facts, map[])
  {
  }

  lemma PluginsNotAggregation()
    ensures PLUGINS !in AggregationConfig()
  {
    assert |PLUGINS| == 26 && PLUGINS[2] == 'e';
  }

  lemma PluginsNotAad(aad: Aad)
    ensures PLUGINS !in AadConfig(aad)
  {
    assert PLUGINS[2] == 'e';
  }

  // The user's policy, unless there is none or it is the old default.
  lemma FinalAuditPolicy(version: Version, facts: ApiFacts, user: Entries)
    ensures Get?(Config(version, facts, user), AUDIT_POLICY)
         == Some(if AUDIT_POLICY in user && user[AUDIT_POLICY] != OLD_AUDIT_POLICY then user[AUDIT_POLICY]
                 else "/etc/kubernetes/addons/audit-policy.yaml")
  {
    hide Layers.Apply, DefaultConfig, LayersFor, Rewrite;
    AuditAt(version, facts, ReplaceOldAudit(user));
    AuditIsDefault(version, facts);
  }

  // From 1.20 on the user's issuer, unless there is none or it is the old default; before
  // that, whatever the user has.
  lemma FinalIssuer(version: Version, facts: ApiFacts, user: Entries)
    ensures Get?(Config(version, facts, user), ISSUER)
         == if !Ge(version, V120A1) then Get?(user, ISSUER)
            else if ISSUER in user && user[ISSUER] != OLD_ISSUER then Some(user[ISSUER])
            else Some(NEW_ISSUER)
  {
    hide Layers.Apply, Ge, Rewrite, LayersFor;
    var layers, m := LayersFor(version, facts), ReplaceOldAudit(user);
    NamesDistinct();
    IssuerLayered(version, facts, m);
    RewriteAt(version, layers.Apply(m), ISSUER);
  }

  lemma IssuerLayered(version: Version, facts: ApiFacts, m: Entries)
    ensures Get?(LayersFor(version, facts).Apply(m), ISSUER)
         == if ISSUER in m then Some(m[ISSUER]) else if Ge(version, V120A1) then Some(NEW_ISSUER) else None
  {
    hide Layers.Apply, Ge, DefaultConfig, Forced, RemovedFlags, InvalidFeatureGates, ToSet;
    NamesDistinct();
    NoGateFlag(version, facts);
    RewrittenInPlace(version, facts);
    IssuerDefault(version, facts);
    LayersFor(version, facts).ApplyFlag(m, ISSUER);
  }

  lemma IssuerDefault(version: Version, facts: ApiFacts)
    ensures Get?(DefaultConfig(version, facts), ISSUER) == if Ge(version, V120A1) then Some(NEW_ISSUER) else None
  {
    hide DefaultConfig, Ge;
    RewrittenInPlace(version, facts);
    assert |NEW_ISSUER| == 44;
  }

  // All IPv4 addresses, or all IPv6 addresses on a single-stack IPv6 cluster; never the user's.
  lemma FinalBindAddress(version: Version, facts: ApiFacts, user: Entries)
    ensures Get?(Config(version, facts, user), BIND_ADDRESS) == Some(if facts.ipv6Only then "::" else "0.0.0.0")
  {
    hide Layers.Apply, Ge, DefaultConfig, Forced, RemovedFlags, InvalidFeatureGates, Rewrite, ToSet;
    var layers, m := LayersFor(version, facts), ReplaceOldAudit(user);
    NamesDistinct();
    NoGateFlag(version, facts);
    BindIsForced(version, facts);
    layers.ApplyFlag(m, BIND_ADDRESS);
    RewriteAt(version, layers.Apply(m), BIND_ADDRESS);
  }

  lemma BindIsForced(version: Version, facts: ApiFacts)
    ensures Get?(Forced(version, facts), BIND_ADDRESS) == Some(if facts.ipv6Only then "::" else "0.0.0.0")
  {
    hide StaticConfig, RemovedFlags, ToSet;
    BindIsStatic(facts);
    BindNotRemoved(version, facts);
  }

  lemma BindNotRemoved(version: Version, facts: ApiFacts)
    ensures BIND_ADDRESS !in ToSet(RemovedFlags(version, facts))
  {
    hide VersionFlags;
    BindNotVersionFlag(version);
    assert |BIND_ADDRESS| == 14 && BIND_ADDRESS[2] == 'b';
  }

  lemma BindNotVersionFlag(version: Version)
    ensures BIND_ADDRESS !in VersionFlags(version)
  {
    assert |BIND_ADDRESS| == 14 && BIND_ADDRESS[2] == 'b';
  }

  lemma BindIsStatic(facts: ApiFacts)
    ensures Get?(StaticConfig(facts), BIND_ADDRESS) == Some("0.0.0.0")
  {
    hide ServingConfig, CertificateConfig, EtcdConfig;
    BindIsServing(facts);
    BindNotCertificate();
    BindNotEtcd(facts.etcd);
  }

  lemma BindIsServing(facts: ApiFacts)
    ensures Get?(ServingConfig(facts), BIND_ADDRESS) == Some("0.0.0.0")
  {
    assert |BIND_ADDRESS| == 14 && BIND_ADDRESS[2] == 'b';
  }

  lemma BindNotCertificate()
    ensures BIND_ADDRESS !in CertificateConfig()
  {
    assert BIND_ADDRESS[2] == 'b';
  }

  lemma BindNotEtcd(etcd: Etcd)
    ensures BIND_ADDRESS !in EtcdConfig(etcd)
  {
    assert BIND_ADDRESS[2] == 'b';
  }
}
