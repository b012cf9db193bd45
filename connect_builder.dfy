/** Building the environment's Strimzi KafkaConnect object (managed-ephem.go,
    KafkaConnectBuilder) and the Secret that holds its OAuth client secret. */
module ConnectBuilder {
  import opened Base
  import opened Environment
  import opened ConnectResources

  const ConnectorResourcesAnnotation := "strimzi.io/use-connector-resources"

  /** Where the Connect cluster lives. */
  function ConnectKey(env: ClowdEnvironment): NamespacedName
  {
    NamespacedName(env.derived.connectNamespace, env.derived.connectClusterName)
  }

  /** The Secret holding the OAuth client secret the Connect cluster presents. */
  function ConnectSecretName(env: ClowdEnvironment): string
  {
    env.derived.connectClusterName + "-connect"
  }

  function ConnectSecretKey(env: ClowdEnvironment): NamespacedName
  {
    NamespacedName(env.derived.connectNamespace, ConnectSecretName(env))
  }

  /** Configured replicas, at least one. */
  function ConnectReplicas(env: ClowdEnvironment): int
  {
    if env.kafka.connect.replicas < 1 then 1 else env.kafka.connect.replicas
  }

  /** Configured version, "3.0.0" when unset. */
  function ConnectVersion(env: ClowdEnvironment): string
  {
    if env.kafka.connect.version == "" then "3.0.0" else env.kafka.connect.version
  }

  /** Configured image, the build's xjoin image when unset. */
  function ConnectImage(env: ClowdEnvironment, xjoinImage: string): string
  {
    if env.kafka.connect.image == "" then xjoinImage else env.kafka.connect.image
  }

  const DefaultRequests := ResourceList("300m", "500Mi")
  const DefaultLimits := ResourceList("600m", "800Mi")

  /** A configured resource list, or the default when unset. */
  function ResourceSpec(field: Option<ResourceList>, default: ResourceList): ResourceList
  {
    match field
    case Some(list) => list
    case None => default
  }

  /** The Connect worker configuration: storage topics named after the environment. */
  function SpecConfig(envName: string): map<string, string>
  {
    map[
      "config.storage.replication.factor" := "1",
      "config.storage.topic" := envName + "-connect-cluster-configs",
      "connector.client.config.override.policy" := "All",
      "group.id" := "connect-cluster",
      "offset.storage.replication.factor" := "1",
      "offset.storage.topic" := envName + "-connect-cluster-offsets",
      "status.storage.replication.factor" := "1",
      "status.storage.topic" := envName + "-connect-cluster-status"
    ]
  }

  /** The spec before TLS and authentication are adjusted: OAuth against the
      managed service, no trusted certificates. */
  function BaseSpec(env: ClowdEnvironment, secretData: map<string, string>, xjoinImage: string): KafkaConnectSpec
  {
    KafkaConnectSpec(
      ConnectReplicas(env),
      SecretField(secretData, "hostname"),
      ConnectVersion(env),
      SpecConfig(env.name),
      ConnectImage(env, xjoinImage),
      ResourceRequirements(
        ResourceSpec(env.kafka.connect.requests, DefaultRequests),
        ResourceSpec(env.kafka.connect.limits, DefaultLimits)),
      OAuth(
        SecretField(secretData, "client.id"),
        SecretKeyRef("client.secret", ConnectSecretName(env)),
        SecretField(secretData, "token.url")),
      [])
  }

  /** With the legacy Strimzi flag the spec is left as it is; otherwise it
      authenticates with SCRAM-SHA-512 and trusts the cluster CA. */
  function WithTlsAndAuthentication(spec: KafkaConnectSpec, env: ClowdEnvironment): KafkaConnectSpec
  {
    if env.kafka.enableLegacyStrimzi then spec
    else
      var user := env.derived.connectClusterUserName;
      spec.(
        trustedCertificates := [TrustedCertificate("ca.crt", env.derived.kafkaName + "-cluster-ca-cert")],
        authentication := ScramSha512(user, PasswordSecretRef("password", user)))
  }

  /** The metadata after annotation: connector resources switched on (other
      annotations kept), owned by the environment, named and placed as the
      Connect cluster, and labelled with the environment alone. */
  function WithOwnership(meta: ObjectMeta, env: ClowdEnvironment): ObjectMeta
  {
    ObjectMeta(
      env.derived.connectClusterName,
      env.derived.connectNamespace,
      map["env" := env.name],
      meta.annotations[ConnectorResourcesAnnotation := "true"],
      [MakeOwnerReference(env)])
  }

  /** The object BuildSpec turns `kc` into. */
  function BuiltConnect(kc: KafkaConnect, env: ClowdEnvironment, secretData: map<string, string>,
                        xjoinImage: string): KafkaConnect
  {
    KafkaConnect(
      WithOwnership(kc.meta, env),
      Some(WithTlsAndAuthentication(BaseSpec(env, secretData, xjoinImage), env)))
  }

  /** An existing Connect cluster labelled for a different environment. */
  predicate LabelConflict(kc: KafkaConnect, envName: string)
  {
    "env" in kc.meta.labels && kc.meta.labels["env"] != envName
  }

  /** The Secret createConnectSecret writes over `s`: the client secret as
      string data, owned by and labelled for the environment; existing binary
      data and annotations are kept. */
  function BuiltSecret(s: Secret, env: ClowdEnvironment, secretData: map<string, string>): Secret
  {
    Secret(
      s.meta.(
        ownerReferences := [MakeOwnerReference(env)],
        name := ConnectSecretName(env),
        namespace := env.derived.connectNamespace,
        labels := map["env" := env.name]),
      s.data,
      map["client.secret" := SecretField(secretData, "client.secret")])
  }

  /** The built object sits at the Connect cluster's key, carries only the
      environment's label (so it never conflicts with its own environment),
      is owned by the environment, and keeps every annotation it had while
      switching connector resources on. */
  lemma BuiltConnectMetadata(kc: KafkaConnect, env: ClowdEnvironment, secretData: map<string, string>,
                             xjoinImage: string)
    ensures var m := BuiltConnect(kc, env, secretData, xjoinImage).meta;
      && KeyOf(m) == ConnectKey(env)
      && m.labels == map["env" := env.name]
      && !LabelConflict(BuiltConnect(kc, env, secretData, xjoinImage), env.name)
      && m.ownerReferences == [OwnerReference(env.name)]
      && m.annotations.Keys == kc.meta.annotations.Keys + {ConnectorResourcesAnnotation}
      && m.annotations[ConnectorResourcesAnnotation] == "true"
      && (forall k :: k in kc.meta.annotations && k != ConnectorResourcesAnnotation ==>
            m.annotations[k] == kc.meta.annotations[k])
  {
  }

  /** Authentication follows the legacy flag: with it, OAuth with the client id
      and token URL from the credentials and the client secret read from the
      Connect Secret, trusting no certificate; without it, SCRAM-SHA-512 as
      the Connect user, trusting the Kafka cluster's CA certificate. */
  lemma BuiltConnectAuthentication(kc: KafkaConnect, env: ClowdEnvironment, secretData: map<string, string>,
                                   xjoinImage: string)
    ensures var spec := BuiltConnect(kc, env, secretData, xjoinImage).spec;
      && spec.Some?
      && (env.kafka.enableLegacyStrimzi ==>
            && spec.value.authentication.Type() == "oauth"
            && spec.value.authentication == OAuth(SecretField(secretData, "client.id"),
                                                  SecretKeyRef("client.secret", ConnectSecretName(env)),
                                                  SecretField(secretData, "token.url"))
            && spec.value.trustedCertificates == [])
      && (!env.kafka.enableLegacyStrimzi ==>
            && spec.value.authentication.Type() == "scram-sha-512"
            && spec.value.authentication.username == env.derived.connectClusterUserName
            && spec.value.authentication.passwordSecret ==
                 PasswordSecretRef("password", env.derived.connectClusterUserName)
            && spec.value.trustedCertificates ==
                 [TrustedCertificate("ca.crt", env.derived.kafkaName + "-cluster-ca-cert")])
  {
  }

  /** The rest of the spec comes from the environment and the credentials
      alone: at least one replica (the configured count when it is positive),
      the configured version or 3.0.0, the configured image or the xjoin image,
      the credentials' hostname as bootstrap server and the environment's
      worker configuration. Whatever spec the object
      had before is discarded. */
  lemma BuiltConnectSpecFields(kc: KafkaConnect, other: KafkaConnect, env: ClowdEnvironment,
                               secretData: map<string, string>, xjoinImage: string)
    ensures var spec := BuiltConnect(kc, env, secretData, xjoinImage).spec.value;
      && spec == BuiltConnect(other, env, secretData, xjoinImage).spec.value
      && spec.replicas >= 1
      && (env.kafka.connect.replicas >= 1 ==> spec.replicas == env.kafka.connect.replicas)
      && (env.kafka.connect.replicas < 1 ==> spec.replicas == 1)
      && spec.version != ""
      && (env.kafka.connect.version != "" ==> spec.version == env.kafka.connect.version)
      && (env.kafka.connect.version == "" ==> spec.version == "3.0.0")
      && (env.kafka.connect.image != "" ==> spec.image == env.kafka.connect.image)
      && (env.kafka.connect.image == "" ==> spec.image == xjoinImage)
      && spec.bootstrapServers == SecretField(secretData, "hostname")
      && spec.config == SpecConfig(env.name)
  {
  }

  /** The resources are the configured requests and limits, each falling back
      on its own default when unset: 300m CPU and 500Mi memory requested,
      600m CPU and 800Mi memory as limit. */
  lemma BuiltConnectResources(kc: KafkaConnect, env: ClowdEnvironment, secretData: map<string, string>,
                              xjoinImage: string)
    ensures var res := BuiltConnect(kc, env, secretData, xjoinImage).spec.value.resources;
      && (env.kafka.connect.requests.None? ==> res.requests == ResourceList("300m", "500Mi"))
      && (env.kafka.connect.limits.None? ==> res.limits == ResourceList("600m", "800Mi"))
      && (env.kafka.connect.requests.Some? ==> res.requests == env.kafka.connect.requests.value)
      && (env.kafka.connect.limits.Some? ==> res.limits == env.kafka.connect.limits.value)
  {
  }

  /** Building is idempotent: rebuilding an object the provider already wrote
      changes nothing. */
  lemma BuiltConnectIdempotent(kc: KafkaConnect, env: ClowdEnvironment, secretData: map<string, string>,
                               xjoinImage: string)
    ensures var once := BuiltConnect(kc, env, secretData, xjoinImage);
      BuiltConnect(once, env, secretData, xjoinImage) == once
  {
    var m := kc.meta.annotations[ConnectorResourcesAnnotation := "true"];
    assert m[ConnectorResourcesAnnotation := "true"] == m;
  }

  /** The three storage topics are distinct, and each is named after its
      environment: two environments never share a storage topic. */
  lemma StorageTopicsSeparate(envName: string, otherEnv: string)
    ensures var c := SpecConfig(envName);
      && c["config.storage.topic"] != c["offset.storage.topic"]
      && c["config.storage.topic"] != c["status.storage.topic"]
      && c["offset.storage.topic"] != c["status.storage.topic"]
    ensures envName != otherEnv ==>
      && SpecConfig(envName)["config.storage.topic"] != SpecConfig(otherEnv)["config.storage.topic"]
      && SpecConfig(envName)["offset.storage.topic"] != SpecConfig(otherEnv)["offset.storage.topic"]
      && SpecConfig(envName)["status.storage.topic"] != SpecConfig(otherEnv)["status.storage.topic"]
  {
    var n := |envName|;
    assert (envName + "-connect-cluster-configs")[n + 17] == 'c';
    assert (envName + "-connect-cluster-offsets")[n + 17] == 'o';
    assert (envName + "-connect-cluster-status")[n + 17] == 's';
    if envName + "-connect-cluster-configs" == otherEnv + "-connect-cluster-configs" {
      SuffixCancel(envName, otherEnv, "-connect-cluster-configs");
    }
    if envName + "-connect-cluster-offsets" == otherEnv + "-connect-cluster-offsets" {
      SuffixCancel(envName, otherEnv, "-connect-cluster-offsets");
    }
    if envName + "-connect-cluster-status" == otherEnv + "-connect-cluster-status" {
      SuffixCancel(envName, otherEnv, "-connect-cluster-status");
    }
  }

  lemma SuffixCancel(a: string, b: string, suffix: string)
    requires a + suffix == b + suffix
    ensures a == b
  {
    assert |a| == |b|;
    assert a == (a + suffix)[..|a|];
    assert b == (b + suffix)[..|b|];
  }

  /** The Secret written for the Connect cluster is the one its OAuth
      authentication points at, in the cluster's namespace, and holds the
      client secret under the key that authentication reads. */
  lemma ConnectSecretBacksOAuth(s: Secret, env: ClowdEnvironment, secretData: map<string, string>,
                                xjoinImage: string)
    ensures var auth := BaseSpec(env, secretData, xjoinImage).authentication;
      var built := BuiltSecret(s, env, secretData);
      && KeyOf(built.meta) == ConnectSecretKey(env)
      && built.meta.namespace == ConnectKey(env).namespace
      && auth.clientSecret.secretName == built.meta.name
      && auth.clientSecret.key in built.stringData
      && built.stringData[auth.clientSecret.key] == SecretField(secretData, "client.secret")
      && built.meta.labels == map["env" := env.name]
      && built.data == s.data && built.meta.annotations == s.meta.annotations
  {
  }

  /** The builder for one environment's KafkaConnect. `namespacedName` is
      cached: blank until first asked for, then the Connect cluster's key. */
  class KafkaConnectBuilder {
    const env: ClowdEnvironment
    const secretData: map<string, string>
    const xjoinImage: string
    const cache: ObjectCache<KafkaConnect>
    var kafkaConnect: KafkaConnect
    var namespacedName: NamespacedName

    predicate Valid()
      reads this
    {
      namespacedName == NamespacedName("", "") || namespacedName == ConnectKey(env)
    }

    /** newKafkaConnectBuilder; the object is empty until Create. */
    constructor (env: ClowdEnvironment, secretData: map<string, string>, xjoinImage: string,
                 cache: ObjectCache<KafkaConnect>)
      ensures this.env == env && this.secretData == secretData && this.xjoinImage == xjoinImage
      ensures this.cache == cache
      ensures kafkaConnect == EmptyConnect && namespacedName == NamespacedName("", "")
      ensures Valid()
    {
      this.env := env;
      this.secretData := secretData;
      this.xjoinImage := xjoinImage;
      this.cache := cache;
      kafkaConnect := EmptyConnect;
      namespacedName := NamespacedName("", "");
    }

    /** The key, recomputed when the cached name is blank or the object has
      no namespace yet. */
    method GetNamespacedName() returns (nn: NamespacedName)
      modifies this
      ensures old(Valid()) ==> nn == ConnectKey(env)
      ensures nn == namespacedName && (old(Valid()) ==> Valid())
      ensures old(namespacedName.name) == "" || kafkaConnect.meta.namespace == "" ==> nn == ConnectKey(env)
      ensures kafkaConnect == old(kafkaConnect)
    {
      if namespacedName.name == "" || kafkaConnect.meta.namespace == "" {
        namespacedName := ConnectKey(env);
      }
      nn := namespacedName;
    }

    /** Reads the Connect cluster's object through the cache (an empty object
        when none exists). */
    method Create() returns (r: Outcome)
      modifies this, cache
      ensures Valid() && namespacedName == ConnectKey(env)
      ensures ConnectKey(env) in cache.createFailing ==>
        && r == Fail(ResourceCacheFailure(ConnectKey(env)))
        && cache.entries == old(cache.entries)
        && kafkaConnect == EmptyConnect
      ensures ConnectKey(env) !in cache.createFailing ==>
        && r == Pass
        && kafkaConnect == cache.Fetched(ConnectKey(env))
        && cache.entries == old(cache.entries)[ConnectKey(env) := kafkaConnect]
    {
      kafkaConnect := EmptyConnect;
      var key := GetNamespacedName();
      var got := cache.Create(key);
      if got.Err? {
        return Fail(got.error);
      }
      kafkaConnect := got.value;
      return Pass;
    }

    /** Refuses an existing cluster of that name labelled for another environment. */
    method VerifyEnvLabel() returns (r: Outcome)
      requires Valid()
      modifies this
      ensures Valid() && kafkaConnect == old(kafkaConnect)
      ensures r.Pass? <==> !LabelConflict(kafkaConnect, env.name)
      ensures r.Fail? ==>
        r.error == EnvLabelConflict(ConnectKey(env).name, ConnectKey(env).namespace, kafkaConnect.meta.labels["env"])
    {
      if "env" in kafkaConnect.meta.labels {
        var envLabel := kafkaConnect.meta.labels["env"];
        if envLabel != env.name {
          var nn := GetNamespacedName();
          return Fail(EnvLabelConflict(nn.name, nn.namespace, envLabel));
        }
      }
      return Pass;
    }

    method BuildSpec()
      modifies this
      ensures kafkaConnect == BuiltConnect(old(kafkaConnect), env, secretData, xjoinImage)
      ensures namespacedName == old(namespacedName)
    {
      kafkaConnect := kafkaConnect.(spec := Some(BaseSpec(env, secretData, xjoinImage)));
      SetTLSAndAuthentication();
      SetAnnotations();
    }

    method SetTLSAndAuthentication()
      requires kafkaConnect.spec.Some?
      modifies this
      ensures kafkaConnect ==
        old(kafkaConnect).(spec := Some(WithTlsAndAuthentication(old(kafkaConnect).spec.value, env)))
      ensures namespacedName == old(namespacedName)
    {
      if env.kafka.enableLegacyStrimzi {
        return;
      }
      var username := env.derived.connectClusterUserName;
      var spec := kafkaConnect.spec.value;
      spec := spec.(trustedCertificates := [TrustedCertificate("ca.crt", env.derived.kafkaName + "-cluster-ca-cert")]);
      spec := spec.(authentication := ScramSha512(username, PasswordSecretRef("password", username)));
      kafkaConnect := kafkaConnect.(spec := Some(spec));
    }

    method SetAnnotations()
      modifies this
      ensures kafkaConnect == old(kafkaConnect).(meta := WithOwnership(old(kafkaConnect).meta, env))
      ensures namespacedName == old(namespacedName)
    {
      var annotations := kafkaConnect.meta.annotations;
      annotations := annotations[ConnectorResourcesAnnotation := "true"];
      var meta := kafkaConnect.meta.(annotations := annotations);
      meta := meta.(ownerReferences := [MakeOwnerReference(env)]);
      meta := meta.(name := env.derived.connectClusterName);
      meta := meta.(namespace := env.derived.connectNamespace);
      meta := meta.(labels := map["env" := env.name]);
      kafkaConnect := kafkaConnect.(meta := meta);
    }

    /** Writes the object back through the cache under its own key. */
    method UpdateCache() returns (r: Outcome)
      modifies cache
      ensures var key := KeyOf(kafkaConnect.meta);
        if key in old(cache.entries) && key !in cache.updateFailing
        then r == Pass && cache.entries == old(cache.entries)[key := kafkaConnect]
        else r == Fail(ResourceCacheFailure(key)) && cache.entries == old(cache.entries)
    {
      r := cache.Update(KeyOf(kafkaConnect.meta), kafkaConnect);
    }
  }
}
