// The flags of the API server that depend on the version or the cluster, one by one.
module ApiServerFlags {
  import opened GoMaps
  import opened Gates
  import opened Options
  import opened Versions
  import opened Layering
  import opened ApiServer

  const SINCE_1_20_ALPHA_0 := PreRelease(1, 20, 0, [Alpha("alpha"), Num(0)])
  const SINCE_1_20_ALPHA_1 := PreRelease(1, 20, 0, [Alpha("alpha"), Num(1)])
  const SINCE_1_24 := Release(1, 24, 0)
  const SINCE_1_25 := Release(1, 25, 0)
  const SINCE_1_27 := Release(1, 27, 0)

  // ---- The tables ----

  // The keys below are told apart from those of a table by their lengths and single letters.

  lemma NotServing(facts: ApiFacts, key: string)
    requires |key| !in {13, 14, 16, 17, 18, 19, 24, 26, 29} || (|key| == 13 && key[2] == 'e')
            || (|key| == 14 && key[2] == 'c') || (|key| == 14 && key[2] == 'e') || (|key| == 16 && key[2] == 'c')
            || (|key| == 16 && key[2] == 'o') || (|key| == 17 && key[2] == 'o') || (|key| == 19 && key[2] == 'o')
            || (|key| == 19 && key[4] == 'm') || (|key| == 24 && key[2] == 'p') || (|key| == 26 && key[2] == 'm')
            || (|key| == 26 && key[2] == 'r') || (|key| == 29 && key[2] == 'r')
    ensures key !in ServingConfig(facts)
  {
  }

  lemma NotCertificate(key: string)
    requires |key| !in {14, 15, 16, 20, 22, 26, 28} || (|key| == 14 && key[2] == 'c')
            || (|key| == 14 && key[7] == 's') || (|key| == 15 && key[2] == 'i') || (|key| == 16 && key[2] == 'o')
            || (|key| == 16 && key[4] == 'o') || (|key| == 20 && key[2] == 'a') || (|key| == 26 && key[2] == 'm')
            || (|key| == 26 && key[2] == 'r') || (|key| == 28 && key[2] == 'e')
    ensures key !in CertificateConfig()
  {
  }

  lemma NotPlain(key: string)
    requires |key| !in {3, 11, 16, 17, 18, 19, 21, 31} || (|key| == 16 && key[2] == 'c')
            || (|key| == 16 && key[2] == 'o') || (|key| == 17 && key[2] == 'o') || (|key| == 19 && key[2] == 'o')
            || (|key| == 19 && key[3] == 'd') || (|key| == 21 && key[2] == 'o') || (|key| == 31 && key[2] == 's')
    ensures key !in PlainDefaults()
  {
  }

  lemma NotRewritten(facts: ApiFacts, key: string)
    requires |key| !in {19, 26} || (|key| == 19 && key[2] == 'o') || (|key| == 19 && key[3] == 'd')
            || (|key| == 26 && key[2] == 'm') || (|key| == 26 && key[2] == 'r')
    ensures key !in RewrittenDefaults(facts)
  {
  }

  lemma NotAggregation(key: string)
    requires |key| !in {23, 24, 29, 30, 32, 36} || (|key| == 23 && key[2] == 'i')
    ensures key !in AggregationConfig()
  {
  }

  lemma NotAad(aad: Aad, key: string)
    requires |key| !in {16, 17, 19, 21} || (|key| == 16 && key[2] == 'c') || (|key| == 19 && key[2] == 'a')
    ensures key !in AadConfig(aad)
  {
  }

  predicate Gone(version: Version, facts: ApiFacts, key: string) {
    || key in {"--admission-control", "--repair-malformed-updates"}
    || (!facts.enableSecureKubelet && key in {"--kubelet-client-certificate", "--kubelet-client-key"})
    || (facts.ipv6Only && key == "--advertise-address")
    || (Ge(version, SINCE_1_24) && key in {"--address", "--insecure-bind-address", "--port", "--insecure-port"})
    || (Ge(version, SINCE_1_25) && key == "--service-account-api-audiences")
    || (Ge(version, SINCE_1_27) && key == "--master-service-namespace")
  }

  lemma GoneIsRemoved(version: Version, facts: ApiFacts, key: string)
    ensures key in ToSet(RemovedFlags(version, facts)) <==> Gone(version, facts, key)
  {
    hide Ge;
  }

  // Which store, cloud and encryption flags are forced.
  function Chosen(facts: ApiFacts): Entries {
    EtcdConfig(facts.etcd)
    + If(facts.encryptionAtRest, map["--encryption-provider-config" := "/etc/kubernetes/encryption-config.yaml"])
    + If(!facts.useCloudControllerManager,
         map["--cloud-provider" := "azure", "--cloud-config" := "/etc/kubernetes/azure.json"])
  }

  lemma ChosenIsForced(facts: ApiFacts, key: string)
    requires key !in ServingConfig(facts) && key !in CertificateConfig()
    ensures Get?(StaticConfig(facts), key) == Get?(Chosen(facts), key)
  {
    hide ServingConfig, CertificateConfig, EtcdConfig;
  }

  // Which defaults there are, apart from those of every cluster.
  function Optional(version: Version, facts: ApiFacts): Entries {
    If(facts.enableAggregatedAPIs, AggregationConfig())
    + (match facts.aad case None => map[] case Some(aad) => AadConfig(aad))
    + If(facts.enableRbac, map["--authorization-mode" := "Node,RBAC"])
    + If(Ge(version, V120A1), IssuerDefaults())
    + If(!Ge(version, V120A0), map["--insecure-port" := "0"])
  }

  lemma OptionalIsDefault(version: Version, facts: ApiFacts, key: string)
    requires key !in PlainDefaults() && key !in RewrittenDefaults(facts)
    ensures Get?(DefaultConfig(version, facts), key) == Get?(Optional(version, facts), key)
  {
    hide PlainDefaults, RewrittenDefaults, AggregationConfig, AadConfig, IssuerDefaults, Ge;
  }

  // ---- The final flags ----

  lemma FlagOf(version: Version, facts: ApiFacts, user: Entries, config: Entries, key: string)
    requires config == Config(version, facts, user) && !Rewritten(key)
    requires key !in ServingConfig(facts) && key !in CertificateConfig()
    requires key !in PlainDefaults() && key !in RewrittenDefaults(facts)
    ensures Get?(config, key)
         == if Gone(version, facts, key) then None
            else if key in Chosen(facts) then Some(Chosen(facts)[key])
            else if key in user then Some(user[key])
            else Get?(Optional(version, facts), key)
  {
    hide Config, DefaultConfig, StaticConfig, RemovedFlags, Ge, Gone, Rewritten, Optional, Chosen, ServingConfig, CertificateConfig,
      PlainDefaults, RewrittenDefaults;
    Precedence(version, facts, user, key);
    GoneIsRemoved(version, facts, key);
    InSet(RemovedFlags(version, facts), key);
    ChosenIsForced(facts, key);
    OptionalIsDefault(version, facts, key);
  }

  lemma InSet(s: seq<string>, key: string)
    ensures key in ToSet(s) <==> key in s
  {
  }

  // A flag that is forced if chosen, and has no default.
  lemma ForcedOrUser(version: Version, facts: ApiFacts, user: Entries, config: Entries, key: string)
    requires config == Config(version, facts, user)
    requires (|key| == 13 && key[2] == 'e') || (|key| == 14 && key[2] == 'c')
            || (|key| == 14 && key[2] == 'e' && key[7] == 's') || (|key| == 16 && key[2] == 'c' && key[4] == 'o')
            || (|key| == 28 && key[2] == 'e')
    ensures Get?(config, key) == if key in Chosen(facts) then Some(Chosen(facts)[key]) else Get?(user, key)
  {
    hide Config, ServingConfig, CertificateConfig, PlainDefaults, RewrittenDefaults, Ge, Chosen, Optional, Gone, Rewritten;
    NotServing(facts, key);
    NotCertificate(key);
    NotPlain(key);
    NotRewritten(facts, key);
    NotOptional(version, facts, key);
    NoneOther(version, facts, key);
    FlagOf(version, facts, user, config, key);
  }

  // None of the flags that are optional one by one, removed or rewritten.
  lemma NoneOther(version: Version, facts: ApiFacts, key: string)
    requires (|key| == 13 && key[2] == 'e') || (|key| == 14 && key[2] == 'c')
            || (|key| == 14 && key[2] == 'e' && key[7] == 's') || (|key| == 16 && key[2] == 'c' && key[4] == 'o')
            || (|key| == 28 && key[2] == 'e')
    ensures key !in {"--authorization-mode", "--service-account-issuer", "--service-account-signing-key-file", "--insecure-port"}
    ensures !Rewritten(key) && !Gone(version, facts, key)
  {
    hide Ge;
    assert |"--authorization-mode"| == 20 && |"--service-account-issuer"| == 24
      && |"--service-account-signing-key-file"| == 34 && |"--insecure-port"| == 15 && |"--feature-gates"| == 15
      && |"--audit-policy-file"| == 19 && |"--enable-admission-plugins"| == 26 && |"--bind-address"| == 14;
    assert |"--kubelet-client-certificate"| == 28 && |"--kubelet-client-key"| == 20 && |"--admission-control"| == 19
      && |"--repair-malformed-updates"| == 26 && |"--address"| == 9 && |"--insecure-bind-address"| == 23
      && |"--port"| == 6 && |"--insecure-port"| == 15 && |"--service-account-api-audiences"| == 31
      && |"--master-service-namespace"| == 26 && |"--advertise-address"| == 19;
  }

  lemma NotOptional(version: Version, facts: ApiFacts, key: string)
    requires (|key| == 13 && key[2] == 'e') || (|key| == 14 && key[2] == 'c')
            || (|key| == 14 && key[2] == 'e' && key[7] == 's') || (|key| == 16 && key[2] == 'c' && key[4] == 'o')
            || (|key| == 28 && key[2] == 'e')
    ensures key !in Optional(version, facts)
  {
    hide AggregationConfig, AadConfig, Ge;
    NotAggregation(key);
    if facts.aad.Some? {
      NotAad(facts.aad.value, key);
    }
    NoneOther(version, facts, key);
  }

  // ---- Store, cloud and encryption ----

  lemma FinalEtcdServers(version: Version, facts: ApiFacts, user: Entries, config: Entries)
    requires config == Config(version, facts, user)
    ensures Get?(config, "--etcd-servers")
         == match facts.etcd
            case NoMaster => Get?(user, "--etcd-servers")
            case LocalEtcd => Some("https://127.0.0.1:2379")
            case CosmosEtcd(uri) => Some("https://" + uri + ":2379")
  {
    hide Config, Ge;
    assert |"--etcd-servers"| == 14 && "--etcd-servers"[2] == 'e' && "--etcd-servers"[7] == 's';
    assert |"--etcd-cafile"| == 13 && |"--encryption-provider-config"| == 28 && |"--cloud-provider"| == 16
      && |"--cloud-config"| == 14;
    ForcedOrUser(version, facts, user, config, "--etcd-servers");
  }

  lemma FinalEtcdCa(version: Version, facts: ApiFacts, user: Entries, config: Entries)
    requires config == Config(version, facts, user)
    ensures Get?(config, "--etcd-cafile")
         == if facts.etcd.LocalEtcd? then Some("/etc/kubernetes/certs/ca.crt") else Get?(user, "--etcd-cafile")
  {
    hide Config, Ge;
    assert |"--etcd-cafile"| == 13 && "--etcd-cafile"[2] == 'e';
    assert |"--etcd-servers"| == 14 && |"--encryption-provider-config"| == 28 && |"--cloud-provider"| == 16
      && |"--cloud-config"| == 14;
    ForcedOrUser(version, facts, user, config, "--etcd-cafile");
  }

  lemma FinalCloudProvider(version: Version, facts: ApiFacts, user: Entries, config: Entries)
    requires config == Config(version, facts, user)
    ensures Get?(config, "--cloud-provider")
         == if facts.useCloudControllerManager then Get?(user, "--cloud-provider") else Some("azure")
  {
    hide Config, Ge;
    assert |"--cloud-provider"| == 16 && "--cloud-provider"[2] == 'c' && "--cloud-provider"[4] == 'o';
    assert |"--etcd-cafile"| == 13 && |"--etcd-servers"| == 14 && |"--encryption-provider-config"| == 28
      && |"--cloud-config"| == 14;
    ForcedOrUser(version, facts, user, config, "--cloud-provider");
  }

  lemma FinalCloudConfig(version: Version, facts: ApiFacts, user: Entries, config: Entries)
    requires config == Config(version, facts, user)
    ensures Get?(config, "--cloud-config")
         == if facts.useCloudControllerManager then Get?(user, "--cloud-config") else Some("/etc/kubernetes/azure.json")
  {
    hide Config, Ge;
    assert |"--cloud-config"| == 14 && "--cloud-config"[2] == 'c';
    assert |"--etcd-cafile"| == 13 && |"--etcd-servers"| == 14 && |"--encryption-provider-config"| == 28
      && |"--cloud-provider"| == 16;
    ForcedOrUser(version, facts, user, config, "--cloud-config");
  }

  lemma FinalEncryption(version: Version, facts: ApiFacts, user: Entries, config: Entries)
    requires config == Config(version, facts, user)
    ensures Get?(config, "--encryption-provider-config")
         == if facts.encryptionAtRest then Some("/etc/kubernetes/encryption-config.yaml")
            else Get?(user, "--encryption-provider-config")
  {
    hide Config, Ge;
    assert |"--encryption-provider-config"| == 28 && "--encryption-provider-config"[2] == 'e';
    assert |"--etcd-cafile"| == 13 && |"--etcd-servers"| == 14 && |"--cloud-provider"| == 16 && |"--cloud-config"| == 14;
    ForcedOrUser(version, facts, user, config, "--encryption-provider-config");
  }

  // ---- Defaults of some clusters ----

  lemma NotChosen(facts: ApiFacts, key: string)
    requires (|key| == 15 && key[2] == 'i') || (|key| == 16 && key[2] == 'o') || (|key| == 17 && key[2] == 'o')
            || (|key| == 19 && key[2] == 'o') || (|key| == 20 && key[2] == 'a') || (|key| == 21 && key[2] == 'o')
            || (|key| == 23 && key[2] == 'p') || (|key| == 24 && key[2] == 'p')
            || (|key| == 29 && key[2] == 'r' && key[16] == 'a') || (|key| == 29 && key[2] == 'r' && key[16] == 'g')
            || |key| == 30 || |key| == 32 || |key| == 34 || |key| == 36
    ensures key !in Chosen(facts)
  {
    assert |"--etcd-cafile"| == 13 && |"--etcd-servers"| == 14 && |"--encryption-provider-config"| == 28
      && |"--cloud-provider"| == 16 && |"--cloud-config"| == 14;
  }

  lemma OnlyPortGone(version: Version, facts: ApiFacts, key: string)
    requires (|key| == 15 && key[2] == 'i') || (|key| == 16 && key[2] == 'o') || (|key| == 17 && key[2] == 'o')
            || (|key| == 19 && key[2] == 'o') || (|key| == 20 && key[2] == 'a') || (|key| == 21 && key[2] == 'o')
            || (|key| == 23 && key[2] == 'p') || (|key| == 24 && key[2] == 'p')
            || (|key| == 29 && key[2] == 'r' && key[16] == 'a') || (|key| == 29 && key[2] == 'r' && key[16] == 'g')
            || |key| == 30 || |key| == 32 || |key| == 34 || |key| == 36
    ensures Gone(version, facts, key) <==> key == "--insecure-port" && Ge(version, SINCE_1_24)
  {
    hide Ge;
    assert |"--kubelet-client-certificate"| == 28 && |"--kubelet-client-key"| == 20 && |"--admission-control"| == 19
      && |"--repair-malformed-updates"| == 26 && |"--address"| == 9 && |"--insecure-bind-address"| == 23
      && |"--port"| == 6 && |"--insecure-port"| == 15 && |"--service-account-api-audiences"| == 31
      && |"--master-service-namespace"| == 26 && |"--advertise-address"| == 19;
  }

  lemma NotSpecial(key: string)
    requires (|key| == 15 && key[2] == 'i') || (|key| == 16 && key[2] == 'o') || (|key| == 17 && key[2] == 'o')
            || (|key| == 19 && key[2] == 'o') || (|key| == 20 && key[2] == 'a') || (|key| == 21 && key[2] == 'o')
            || (|key| == 23 && key[2] == 'p') || (|key| == 24 && key[2] == 'p')
            || (|key| == 29 && key[2] == 'r' && key[16] == 'a') || (|key| == 29 && key[2] == 'r' && key[16] == 'g')
            || |key| == 30 || |key| == 32 || |key| == 34 || |key| == 36
    ensures !Rewritten(key)
  {
    assert |"--feature-gates"| == 15 && |"--audit-policy-file"| == 19 && |"--enable-admission-plugins"| == 26
      && |"--bind-address"| == 14 && |"--service-account-issuer"| == 24;
  }

  // A flag that some clusters have a default for.
  lemma OptionalOrUser(version: Version, facts: ApiFacts, user: Entries, config: Entries, key: string)
    requires config == Config(version, facts, user)
    requires (|key| == 15 && key[2] == 'i') || (|key| == 16 && key[2] == 'o') || (|key| == 17 && key[2] == 'o')
            || (|key| == 19 && key[2] == 'o') || (|key| == 20 && key[2] == 'a') || (|key| == 21 && key[2] == 'o')
            || (|key| == 23 && key[2] == 'p') || (|key| == 24 && key[2] == 'p')
            || (|key| == 29 && key[2] == 'r' && key[16] == 'a') || (|key| == 29 && key[2] == 'r' && key[16] == 'g')
            || |key| == 30 || |key| == 32 || |key| == 34 || |key| == 36
    ensures Get?(config, key)
         == if key == "--insecure-port" && Ge(version, SINCE_1_24) then None
            else if key in user then Some(user[key]) else Get?(Optional(version, facts), key)
  {
    hide Config, ServingConfig, CertificateConfig, PlainDefaults, RewrittenDefaults, AggregationConfig, AadConfig, Ge, Chosen,
      Optional, Gone, Rewritten;
    NotServing(facts, key);
    NotCertificate(key);
    NotPlain(key);
    NotRewritten(facts, key);
    NotChosen(facts, key);
    NotSpecial(key);
    OnlyPortGone(version, facts, key);
    FlagOf(version, facts, user, config, key);
  }

  lemma AuthorizationDefault(version: Version, facts: ApiFacts)
    ensures Get?(Optional(version, facts), "--authorization-mode")
         == if facts.enableRbac then Some("Node,RBAC") else None
  {
    hide Ge, AggregationConfig, AadConfig;
    assert |"--authorization-mode"| == 20 && "--authorization-mode"[2] == 'a';
    NotAggregation("--authorization-mode");
    if facts.aad.Some? {
      NotAad(facts.aad.value, "--authorization-mode");
    }
    assert |"--service-account-issuer"| == 24 && |"--service-account-signing-key-file"| == 34
      && |"--insecure-port"| == 15;
  }

  lemma FinalAuthorization(version: Version, facts: ApiFacts, user: Entries, config: Entries)
    requires config == Config(version, facts, user)
    ensures Get?(config, "--authorization-mode")
         == if "--authorization-mode" in user then Get?(user, "--authorization-mode")
            else if facts.enableRbac then Some("Node,RBAC") else None
  {
    hide Config, Ge, Optional;
    assert |"--authorization-mode"| == 20 && "--authorization-mode"[2] == 'a';
    AuthorizationDefault(version, facts);
    OptionalOrUser(version, facts, user, config, "--authorization-mode");
  }

  lemma InsecurePortDefault(version: Version, facts: ApiFacts)
    ensures Get?(Optional(version, facts), "--insecure-port")
         == if Ge(version, SINCE_1_20_ALPHA_0) then None else Some("0")
  {
    hide Ge, AggregationConfig, AadConfig;
    assert |"--insecure-port"| == 15 && "--insecure-port"[2] == 'i';
    NotAggregation("--insecure-port");
    if facts.aad.Some? {
      NotAad(facts.aad.value, "--insecure-port");
    }
    assert |"--service-account-issuer"| == 24 && |"--service-account-signing-key-file"| == 34
      && |"--authorization-mode"| == 20;
  }

  lemma FinalInsecurePort(version: Version, facts: ApiFacts, user: Entries, config: Entries)
    requires config == Config(version, facts, user)
    ensures Get?(config, "--insecure-port")
         == if Ge(version, SINCE_1_24) then None
            else if "--insecure-port" in user then Get?(user, "--insecure-port")
            else if Ge(version, SINCE_1_20_ALPHA_0) then None else Some("0")
  {
    hide Config, Ge, Optional;
    assert |"--insecure-port"| == 15 && "--insecure-port"[2] == 'i';
    InsecurePortDefault(version, facts);
    OptionalOrUser(version, facts, user, config, "--insecure-port");
  }

  lemma SigningKeyDefault(version: Version, facts: ApiFacts)
    ensures Get?(Optional(version, facts), "--service-account-signing-key-file")
         == if Ge(version, SINCE_1_20_ALPHA_1) then Some("/etc/kubernetes/certs/apiserver.key")
            else None
  {
    hide Ge, AggregationConfig, AadConfig;
    assert |"--service-account-signing-key-file"| == 34;
    NotAggregation("--service-account-signing-key-file");
    if facts.aad.Some? {
      NotAad(facts.aad.value, "--service-account-signing-key-file");
    }
    assert |"--service-account-issuer"| == 24 && |"--authorization-mode"| == 20 && |"--insecure-port"| == 15;
  }

  lemma FinalSigningKey(version: Version, facts: ApiFacts, user: Entries, config: Entries)
    requires config == Config(version, facts, user)
    ensures Get?(config, "--service-account-signing-key-file")
         == if "--service-account-signing-key-file" in user then Get?(user, "--service-account-signing-key-file")
            else if Ge(version, SINCE_1_20_ALPHA_1) then Some("/etc/kubernetes/certs/apiserver.key")
            else None
  {
    hide Config, Ge, Optional;
    assert |"--service-account-signing-key-file"| == 34;
    SigningKeyDefault(version, facts);
    OptionalOrUser(version, facts, user, config, "--service-account-signing-key-file");
  }

  lemma OidcClientDefault(version: Version, facts: ApiFacts)
    ensures Get?(Optional(version, facts), "--oidc-client-id")
         == if facts.aad.Some? then Some("spn:" + facts.aad.value.serverAppID) else None
  {
    hide Ge, AggregationConfig;
    assert |"--oidc-client-id"| == 16 && "--oidc-client-id"[2] == 'o';
    NotAggregation("--oidc-client-id");
    assert |"--service-account-issuer"| == 24 && |"--service-account-signing-key-file"| == 34
      && |"--authorization-mode"| == 20 && |"--insecure-port"| == 15 && |"--oidc-username-claim"| == 21
      && |"--oidc-groups-claim"| == 19 && |"--oidc-client-id"| == 16 && |"--oidc-issuer-url"| == 17;
  }

  lemma FinalOidcClient(version: Version, facts: ApiFacts, user: Entries, config: Entries)
    requires config == Config(version, facts, user)
    ensures Get?(config, "--oidc-client-id")
         == if "--oidc-client-id" in user then Get?(user, "--oidc-client-id")
            else if facts.aad.Some? then Some("spn:" + facts.aad.value.serverAppID) else None
  {
    hide Config, Ge, Optional;
    assert |"--oidc-client-id"| == 16 && "--oidc-client-id"[2] == 'o';
    OidcClientDefault(version, facts);
    OptionalOrUser(version, facts, user, config, "--oidc-client-id");
  }

  lemma OidcIssuerDefault(version: Version, facts: ApiFacts)
    ensures Get?(Optional(version, facts), "--oidc-issuer-url")
         == if facts.aad.Some? then Some("https://" + facts.aad.value.issuerHost + "/" + facts.aad.value.tenantID + "/") else None
  {
    hide Ge, AggregationConfig;
    assert |"--oidc-issuer-url"| == 17 && "--oidc-issuer-url"[2] == 'o';
    NotAggregation("--oidc-issuer-url");
    assert |"--service-account-issuer"| == 24 && |"--service-account-signing-key-file"| == 34
      && |"--authorization-mode"| == 20 && |"--insecure-port"| == 15 && |"--oidc-username-claim"| == 21
      && |"--oidc-groups-claim"| == 19 && |"--oidc-client-id"| == 16 && |"--oidc-issuer-url"| == 17;
  }

  lemma FinalOidcIssuer(version: Version, facts: ApiFacts, user: Entries, config: Entries)
    requires config == Config(version, facts, user)
    ensures Get?(config, "--oidc-issuer-url")
         == if "--oidc-issuer-url" in user then Get?(user, "--oidc-issuer-url")
            else match facts.aad
                 case None => None
                 case Some(aad) => Some("https://" + aad.issuerHost + "/" + aad.tenantID + "/")
  {
    hide Config, Ge, Optional;
    assert |"--oidc-issuer-url"| == 17 && "--oidc-issuer-url"[2] == 'o';
    OidcIssuerDefault(version, facts);
    OptionalOrUser(version, facts, user, config, "--oidc-issuer-url");
  }

  lemma ProxyCa()
    ensures Get?(AggregationConfig(), "--requestheader-client-ca-file") == Some("/etc/kubernetes/certs/proxy-ca.crt")
  {
    assert |"--proxy-client-key-file"| == 23 && |"--proxy-client-cert-file"| == 24
      && |"--requestheader-allowed-names"| == 29 && |"--requestheader-group-headers"| == 29
      && |"--requestheader-client-ca-file"| == 30 && |"--requestheader-username-headers"| == 32
      && |"--requestheader-extra-headers-prefix"| == 36;
  }

  lemma ProxyCaDefault(version: Version, facts: ApiFacts)
    ensures Get?(Optional(version, facts), "--requestheader-client-ca-file")
         == if facts.enableAggregatedAPIs then Some("/etc/kubernetes/certs/proxy-ca.crt") else None
  {
    hide Ge, AadConfig, AggregationConfig;
    assert |"--requestheader-client-ca-file"| == 30;
    if facts.aad.Some? {
      NotAad(facts.aad.value, "--requestheader-client-ca-file");
    }
    assert |"--service-account-issuer"| == 24 && |"--service-account-signing-key-file"| == 34
      && |"--authorization-mode"| == 20 && |"--insecure-port"| == 15;
    ProxyCa();
  }

  lemma FinalProxyCa(version: Version, facts: ApiFacts, user: Entries, config: Entries)
    requires config == Config(version, facts, user)
    ensures Get?(config, "--requestheader-client-ca-file")
         == if "--requestheader-client-ca-file" in user then Get?(user, "--requestheader-client-ca-file")
            else if facts.enableAggregatedAPIs then Some("/etc/kubernetes/certs/proxy-ca.crt") else None
  {
    hide Config, Ge, Optional;
    assert |"--requestheader-client-ca-file"| == 30;
    ProxyCaDefault(version, facts);
    OptionalOrUser(version, facts, user, config, "--requestheader-client-ca-file");
  }

  // ---- Removed flags ----

  // Whatever the user sets, or the command would force.
  lemma FinalRemoved(version: Version, facts: ApiFacts, user: Entries, config: Entries, key: string)
    requires config == Config(version, facts, user) && !Rewritten(key) && Gone(version, facts, key)
    ensures key !in config
  {
    hide Config, DefaultConfig, StaticConfig, RemovedFlags, Ge, Gone, Rewritten;
    Precedence(version, facts, user, key);
    GoneIsRemoved(version, facts, key);
    InSet(RemovedFlags(version, facts), key);
  }

  lemma ClientPaths()
    ensures Get?(CertificateConfig(), "--kubelet-client-certificate") == Some("/etc/kubernetes/certs/client.crt")
    ensures Get?(CertificateConfig(), "--kubelet-client-key") == Some("/etc/kubernetes/certs/client.key")
  {
    assert |"--etcd-keyfile"| == 14 && |"--etcd-certfile"| == 15 && |"--tls-cert-file"| == 15
      && |"--client-ca-file"| == 16 && |"--kubelet-client-key"| == 20 && |"--tls-private-key-file"| == 22
      && |"--service-account-key-file"| == 26 && |"--kubelet-client-certificate"| == 28;
  }

  lemma CertificateForced(facts: ApiFacts, key: string)
    requires key !in Chosen(facts) && key in CertificateConfig()
    ensures Get?(StaticConfig(facts), key) == Get?(CertificateConfig(), key)
  {
    hide ServingConfig, CertificateConfig, EtcdConfig;
  }

  lemma ClientNotChosen(facts: ApiFacts, key: string)
    requires |key| in {20, 28} && key[2] == 'k'
    ensures key !in Chosen(facts)
  {
    assert |"--encryption-provider-config"| == 28 && "--encryption-provider-config"[2] == 'e';
    assert |"--etcd-cafile"| == 13 && |"--etcd-servers"| == 14 && |"--cloud-provider"| == 16 && |"--cloud-config"| == 14;
  }

  lemma ClientNotSpecial(key: string)
    requires |key| in {20, 28}
    ensures !Rewritten(key)
  {
    assert |"--feature-gates"| == 15 && |"--audit-policy-file"| == 19 && |"--enable-admission-plugins"| == 26
      && |"--bind-address"| == 14 && |"--service-account-issuer"| == 24;
  }

  lemma ClientGone(version: Version, facts: ApiFacts, key: string)
    requires key in {"--kubelet-client-certificate", "--kubelet-client-key"}
    ensures Gone(version, facts, key) <==> !facts.enableSecureKubelet
  {
    hide Ge;
    assert |"--kubelet-client-certificate"| == 28 && |"--kubelet-client-key"| == 20 && |"--admission-control"| == 19
      && |"--repair-malformed-updates"| == 26 && |"--address"| == 9 && |"--insecure-bind-address"| == 23
      && |"--port"| == 6 && |"--insecure-port"| == 15 && |"--service-account-api-audiences"| == 31
      && |"--master-service-namespace"| == 26 && |"--advertise-address"| == 19;
  }

  // The API server authenticates to kubelets exactly if these are secured.
  lemma FinalKubeletClient(version: Version, facts: ApiFacts, user: Entries, config: Entries, key: string)
    requires config == Config(version, facts, user)
    requires key in {"--kubelet-client-certificate", "--kubelet-client-key"}
    ensures Get?(config, key)
         == if !facts.enableSecureKubelet then None
            else Some(if key == "--kubelet-client-key" then "/etc/kubernetes/certs/client.key" else "/etc/kubernetes/certs/client.crt")
  {
    hide Config, DefaultConfig, StaticConfig, CertificateConfig, RemovedFlags, Ge, Gone, Rewritten, Chosen;
    assert |"--kubelet-client-certificate"| == 28 && |"--kubelet-client-key"| == 20;
    assert "--kubelet-client-certificate"[2] == 'k' && "--kubelet-client-key"[2] == 'k';
    ClientPaths();
    ClientNotChosen(facts, key);
    CertificateForced(facts, key);
    ClientNotSpecial(key);
    ClientGone(version, facts, key);
    Precedence(version, facts, user, key);
    GoneIsRemoved(version, facts, key);
    InSet(RemovedFlags(version, facts), key);
  }
}
