/** The managed-ephemeral Kafka provider (managed-ephem.go): its constructor,
    the Kafka Connect secret and cluster it provisions, and the per-app topic
    processing that syncs each requested topic with the managed admin API. */
module ManagedEphem {
  import opened Base
  import opened Environment
  import opened AdminApi
  import opened ClientCaching
  import opened TopicAggregation
  import opened TopicSync
  import opened ConnectResources
  import opened ConnectBuilder

  datatype SaslConfig = SaslConfig(password: string, username: string, securityProtocol: string,
                                   saslMechanism: string)

  datatype BrokerConfig = BrokerConfig(hostname: string, port: int, authtype: string, sasl: SaslConfig)

  /** A topic as handed to the app: the environment-scoped name and the name it asked for. */
  datatype TopicConfig = TopicConfig(name: string, requestedName: string)

  /** The Kafka section of an app's configuration. */
  datatype KafkaConfig = KafkaConfig(brokers: seq<BrokerConfig>, topics: seq<TopicConfig>)

  /** The single managed broker: the credentials' hostname on port 443 with
      SASL/PLAIN over SSL, using the service account's id and secret. */
  function ManagedBroker(secretData: map<string, string>): BrokerConfig
  {
    BrokerConfig(
      SecretField(secretData, "hostname"),
      443,
      "sasl",
      SaslConfig(SecretField(secretData, "client.secret"), SecretField(secretData, "client.id"),
                 "SASL_SSL", "PLAIN"))
  }

  /** The topic configs for `topics`, in request order. */
  function TopicConfigs(envName: string, topics: seq<TopicRequest>): (cs: seq<TopicConfig>)
    ensures |cs| == |topics|
    ensures forall i :: 0 <= i < |topics| ==>
      cs[i] == TopicConfig(EphemTopicName(envName, topics[i].topicName), topics[i].topicName)
  {
    if topics == [] then []
    else
      var t := topics[|topics| - 1];
      TopicConfigs(envName, topics[..|topics| - 1]) + [TopicConfig(EphemTopicName(envName, t.topicName), t.topicName)]
  }

  lemma TopicConfigsExtend(envName: string, topics: seq<TopicRequest>, i: nat)
    requires i < |topics|
    ensures TopicConfigs(envName, topics[..i + 1]) ==
      TopicConfigs(envName, topics[..i]) + [TopicConfig(EphemTopicName(envName, topics[i].topicName), topics[i].topicName)]
  {
    assert topics[..i + 1][..i] == topics[..i];
  }

  /** What processing `topics` does against an admin server answering
      `respond`: the requests sent, whether it stopped on an error, the sync
      error when a sync failed (None when an aggregation failed), and the
      requested name of the last topic processed. Each topic is aggregated
      over `apps` and synced under its environment-scoped name; the first
      failure ends the run. */
  datatype TopicsRun = TopicsRun(sent: seq<Request>, failed: bool, error: Option<Error>, lastTopic: string)

  /** The error a failed run reports: the failing topic's sync error, or,
      when that topic's aggregation failed, a key without a converter that
      some app's request for that topic sets. */
  predicate ReportsRunError(run: TopicsRun, e: Error, apps: seq<App>, conversions: map<string, Converter>)
  {
    match run.error
    case Some(err) => e == err
    case None =>
      && e.NoConversion? && e.key !in conversions
      && e.key in GroupConfig(Matching(apps, run.lastTopic))
  }

  /** What processing one topic does once its settings have been aggregated
      (None when some requested config key has no converter): nothing is
      sent for a failed aggregation; otherwise the topic, requested as
      `requested`, is synced under `name`. */
  function TopicStep(agg: Option<Settings>, requested: string, name: string, host: string,
                     respond: Request -> Reply): TopicsRun
  {
    match agg
    case None => TopicsRun([], true, None, requested)
    case Some(settings) =>
      var sync := SyncSpec(host, name, settings, respond);
      TopicsRun(sync.sent, sync.outcome.Fail?, if sync.outcome.Fail? then Some(sync.outcome.error) else None,
                requested)
  }

  /** The aggregated settings of each topic, over all the apps. */
  function Aggregates(apps: seq<App>, topics: seq<TopicRequest>, conversions: map<string, Converter>,
                      clusterReplicas: int): seq<Option<Settings>>
  {
    seq(|topics|, k requires 0 <= k < |topics| => AggregateSpec(apps, topics[k].topicName, conversions, clusterReplicas))
  }

  lemma AggregatesAt(apps: seq<App>, topics: seq<TopicRequest>, conversions: map<string, Converter>,
                     clusterReplicas: int, i: nat)
    requires i < |topics|
    ensures Aggregates(apps, topics, conversions, clusterReplicas)[i] ==
            AggregateSpec(apps, topics[i].topicName, conversions, clusterReplicas)
  {
  }

  /** Processing the first `i` of `topics`, whose aggregates are `aggs`, in
      order: a run that has failed stays as it is; otherwise topic `i - 1`'s
      step is added under the topic's environment-scoped name. */
  function RunUpTo(topics: seq<TopicRequest>, aggs: seq<Option<Settings>>, envName: string, host: string,
                   respond: Request -> Reply, i: nat): TopicsRun
    requires |aggs| == |topics| && i <= |topics|
  {
    if i == 0 then TopicsRun([], false, None, "")
    else
      var done := RunUpTo(topics, aggs, envName, host, respond, i - 1);
      if done.failed then done
      else
        var step := TopicStep(aggs[i - 1], topics[i - 1].topicName, EphemTopicName(envName, topics[i - 1].topicName),
                              host, respond);
        TopicsRun(done.sent + step.sent, step.failed, step.error, step.lastTopic)
  }

  /** What processing the app's `topics` does against an admin server
      answering `respond`, each topic aggregated over `apps`. */
  function ProcessTopicsRun(topics: seq<TopicRequest>, apps: seq<App>, env: ClowdEnvironment, host: string,
                            conversions: map<string, Converter>, respond: Request -> Reply): TopicsRun
  {
    RunUpTo(topics, Aggregates(apps, topics, conversions, env.kafka.clusterReplicas), env.name, host, respond,
            |topics|)
  }

  /** One pass of processTopics' loop: when topic `i` is processed after
      a run that has not failed, the requests the client has issued and the
      outcome are those of the run over the first `i + 1` topics. */
  lemma ProcessTopicsStep(topics: seq<TopicRequest>, apps: seq<App>, env: ClowdEnvironment, host: string,
                          conversions: map<string, Converter>, respond: Request -> Reply, i: nat,
                          base: seq<Request>, before: seq<Request>, after: seq<Request>, r: Outcome)
    requires i < |topics|
    requires
      var aggs := Aggregates(apps, topics, conversions, env.kafka.clusterReplicas);
      && !RunUpTo(topics, aggs, env.name, host, respond, i).failed
      && before == base + RunUpTo(topics, aggs, env.name, host, respond, i).sent
    requires
      var step := TopicStep(AggregateSpec(apps, topics[i].topicName, conversions, env.kafka.clusterReplicas),
                            topics[i].topicName, EphemTopicName(env.name, topics[i].topicName), host, respond);
      && after == before + step.sent && (r.Fail? <==> step.failed)
      && (r.Fail? ==> ReportsRunError(step, r.error, apps, conversions))
    ensures
      var aggs := Aggregates(apps, topics, conversions, env.kafka.clusterReplicas);
      && after == base + RunUpTo(topics, aggs, env.name, host, respond, i + 1).sent
      && (r.Pass? <==> !RunUpTo(topics, aggs, env.name, host, respond, i + 1).failed)
      && (r.Fail? ==> ReportsRunError(RunUpTo(topics, aggs, env.name, host, respond, i + 1), r.error, apps, conversions))
  {
    AggregatesAt(apps, topics, conversions, env.kafka.clusterReplicas, i);
  }

  /** Once the run has failed, the later topics are never processed. */
  lemma {:induction false} RunUpToFailedStable(topics: seq<TopicRequest>, aggs: seq<Option<Settings>>,
                                               envName: string, host: string, respond: Request -> Reply,
                                               i: nat, j: nat)
    requires |aggs| == |topics| && i <= j <= |topics|
    requires RunUpTo(topics, aggs, envName, host, respond, i).failed
    ensures RunUpTo(topics, aggs, envName, host, respond, j) == RunUpTo(topics, aggs, envName, host, respond, i)
    decreases j
  {
    if i < j {
      RunUpToFailedStable(topics, aggs, envName, host, respond, i, j - 1);
    }
  }

  /** A failed run stopped at the first topic that failed: every topic before
      it went through, and the run's outcome, including the error it reports,
      is that topic's step. */
  lemma {:induction false} RunUpToFirstFailure(topics: seq<TopicRequest>, aggs: seq<Option<Settings>>,
                                               envName: string, host: string, respond: Request -> Reply, n: nat)
    returns (k: nat)
    requires |aggs| == |topics| && n <= |topics|
    requires RunUpTo(topics, aggs, envName, host, respond, n).failed
    ensures k < n
    ensures !RunUpTo(topics, aggs, envName, host, respond, k).failed
    ensures var step := TopicStep(aggs[k], topics[k].topicName, EphemTopicName(envName, topics[k].topicName), host,
                                  respond);
      && step.failed
      && RunUpTo(topics, aggs, envName, host, respond, n).error == step.error
      && RunUpTo(topics, aggs, envName, host, respond, n).lastTopic == topics[k].topicName
      && RunUpTo(topics, aggs, envName, host, respond, n).sent
         == RunUpTo(topics, aggs, envName, host, respond, k).sent + step.sent
    decreases n
  {
    if RunUpTo(topics, aggs, envName, host, respond, n - 1).failed {
      k := RunUpToFirstFailure(topics, aggs, envName, host, respond, n - 1);
    } else {
      k := n - 1;
    }
  }

  /** A run sends nothing but probes and writes, at most two per topic; one
      that gets through its topics sends exactly two per topic, in request
      order, each starting with the probe for the topic's environment-scoped
      name. */
  lemma {:induction false} RunUpToProbesEachTopic(topics: seq<TopicRequest>, aggs: seq<Option<Settings>>,
                                                  envName: string, host: string, respond: Request -> Reply,
                                                  n: nat)
    requires |aggs| == |topics| && n <= |topics|
    ensures var run := RunUpTo(topics, aggs, envName, host, respond, n);
      && (forall i :: 0 <= i < |run.sent| ==> !run.sent[i].Delete?)
      && |run.sent| <= 2 * n
      && (!run.failed ==>
            && |run.sent| == 2 * n
            && forall i :: 0 <= i < n ==>
                 run.sent[2 * i] == Get(TopicUrl(host, EphemTopicName(envName, topics[i].topicName))))
  {
    if n > 0 {
      var run := RunUpTo(topics, aggs, envName, host, respond, n);
      var done := RunUpTo(topics, aggs, envName, host, respond, n - 1);
      RunUpToProbesEachTopic(topics, aggs, envName, host, respond, n - 1);
      if !done.failed && aggs[n - 1].Some? {
        var name := EphemTopicName(envName, topics[n - 1].topicName);
        var settings := aggs[n - 1].value;
        var sync := SyncSpec(host, name, settings, respond);
        SyncProbesFirst(host, name, settings, respond);
        if respond(sync.sent[0]).Response? {
          if WriteRequest(host, name, settings, respond(sync.sent[0]).status).Post? {
            SyncCreatesAbsentTopic(host, name, settings, respond);
          } else {
            SyncPatchesPresentTopic(host, name, settings, respond);
          }
        }
        assert run.sent == done.sent + sync.sent;
        assert forall i :: 0 <= i < |sync.sent| ==> !sync.sent[i].Delete?;
        if !run.failed {
          assert forall i :: 0 <= i < n - 1 ==> run.sent[2 * i] == done.sent[2 * i];
        }
      }
    }
  }

  /** A topic whose aggregation fails stops the run before anything is sent
      for it: at most a probe and a write for each topic before it. */
  lemma RunStopsAtFailedAggregate(topics: seq<TopicRequest>, aggs: seq<Option<Settings>>,
                                  envName: string, host: string, respond: Request -> Reply, k: nat)
    requires |aggs| == |topics| && k < |topics| && aggs[k].None?
    ensures RunUpTo(topics, aggs, envName, host, respond, |topics|).failed
    ensures |RunUpTo(topics, aggs, envName, host, respond, |topics|).sent| <= 2 * k
  {
    RunUpToProbesEachTopic(topics, aggs, envName, host, respond, k);
    if RunUpTo(topics, aggs, envName, host, respond, k).failed {
      RunUpToFailedStable(topics, aggs, envName, host, respond, k, |topics|);
    } else {
      RunUpToFailedStable(topics, aggs, envName, host, respond, k + 1, |topics|);
    }
  }

  /** processTopics never deletes, and a run that gets through every topic
      probes each topic's environment-scoped name in request order. */
  lemma ProcessTopicsProbesEachTopic(topics: seq<TopicRequest>, apps: seq<App>, env: ClowdEnvironment,
                                     host: string, conversions: map<string, Converter>, respond: Request -> Reply)
    ensures var run := ProcessTopicsRun(topics, apps, env, host, conversions, respond);
      && (forall i :: 0 <= i < |run.sent| ==> !run.sent[i].Delete?)
      && (!run.failed ==>
            && |run.sent| == 2 * |topics|
            && forall i :: 0 <= i < |topics| ==>
                 run.sent[2 * i] == Get(TopicUrl(host, EphemTopicName(env.name, topics[i].topicName))))
  {
    RunUpToProbesEachTopic(topics, Aggregates(apps, topics, conversions, env.kafka.clusterReplicas),
                           env.name, host, respond, |topics|);
  }

  /** A topic for which some app requests a config key with no converter
      fails processTopics before anything is sent for that topic. */
  lemma ProcessTopicsStopsOnUnknownKey(topics: seq<TopicRequest>, apps: seq<App>, env: ClowdEnvironment,
                                       host: string, conversions: map<string, Converter>,
                                       respond: Request -> Reply, k: nat, a: App, t: TopicRequest,
                                       key: string)
    requires k < |topics| && a in apps
    requires t in a.kafkaTopics && t.topicName == topics[k].topicName && key in t.config && key !in conversions
    ensures ProcessTopicsRun(topics, apps, env, host, conversions, respond).failed
    ensures |ProcessTopicsRun(topics, apps, env, host, conversions, respond).sent| <= 2 * k
  {
    var aggs := Aggregates(apps, topics, conversions, env.kafka.clusterReplicas);
    AggregateFailsOnUnknownKey(apps, topics[k].topicName, conversions, env.kafka.clusterReplicas);
    assert aggs[k].None?;
    RunStopsAtFailedAggregate(topics, aggs, env.name, host, respond, k);
  }

  class ManagedEphemProvider {
    const env: ClowdEnvironment
    const connects: ObjectCache<KafkaConnect>
    const secrets: ObjectCache<Secret>
    const tokenClient: AdminClient
    const adminHostname: string
    const secretData: map<string, string>
    const xjoinImage: string
    const conversions: map<string, Converter>
    var config: KafkaConfig

    constructor (env: ClowdEnvironment, connects: ObjectCache<KafkaConnect>, secrets: ObjectCache<Secret>,
                 tokenClient: AdminClient, adminHostname: string, secretData: map<string, string>,
                 xjoinImage: string, conversions: map<string, Converter>, config: KafkaConfig)
      ensures this.env == env && this.connects == connects && this.secrets == secrets
      ensures this.tokenClient == tokenClient && this.adminHostname == adminHostname
      ensures this.secretData == secretData && this.xjoinImage == xjoinImage
      ensures this.conversions == conversions && this.config == config
    {
      this.env := env;
      this.connects := connects;
      this.secrets := secrets;
      this.tokenClient := tokenClient;
      this.adminHostname := adminHostname;
      this.secretData := secretData;
      this.xjoinImage := xjoinImage;
      this.conversions := conversions;
      this.config := config;
    }

    /** How writing the Connect Secret ends: refused when the cluster refuses
        reading or writing its key. */
    function SecretWriteOutcome(): Outcome
    {
      var key := ConnectSecretKey(env);
      if key in secrets.createFailing || key in secrets.updateFailing then Fail(ResourceCacheFailure(key))
      else Pass
    }

    /** The secret cache's entries after writing the Connect Secret. */
    function SecretWrite(entries: map<NamespacedName, Secret>): map<NamespacedName, Secret>
    {
      var key := ConnectSecretKey(env);
      if key in secrets.createFailing then entries
      else if key in secrets.updateFailing then entries[key := secrets.Fetched(key)]
      else entries[key := BuiltSecret(secrets.Fetched(key), env, secretData)]
    }

    /** How provisioning the Connect cluster ends: the read refused, the
        existing cluster tied to another environment, or the write refused. */
    function ConnectWriteOutcome(): Outcome
    {
      var key := ConnectKey(env);
      var existing := connects.Fetched(key);
      if key in connects.createFailing then Fail(ResourceCacheFailure(key))
      else if LabelConflict(existing, env.name) then
        Fail(EnvLabelConflict(key.name, key.namespace, existing.meta.labels["env"]))
      else if key in connects.updateFailing then Fail(ResourceCacheFailure(key))
      else Pass
    }

    /** The connect cache's entries after provisioning the Connect cluster. */
    function ConnectWrite(entries: map<NamespacedName, KafkaConnect>): map<NamespacedName, KafkaConnect>
    {
      var key := ConnectKey(env);
      var existing := connects.Fetched(key);
      if key in connects.createFailing then entries
      else if LabelConflict(existing, env.name) || key in connects.updateFailing then entries[key := existing]
      else entries[key := BuiltConnect(existing, env, secretData, xjoinImage)]
    }

    /** How configureBrokers ends: the secret first, then the cluster, each
        failure wrapped with what was being done. */
    function BrokersOutcome(): Outcome
    {
      if SecretWriteOutcome().Fail? then
        Fail(Wrapped("failed to create kafka connect cluster secret", SecretWriteOutcome().error))
      else if ConnectWriteOutcome().Fail? then
        Fail(Wrapped("failed to provision kafka connect cluster", ConnectWriteOutcome().error))
      else Pass
    }

    /** When provisioning succeeds the cache holds the built Connect cluster
        and its Secret, and the OAuth client secret the cluster reads (with the
        legacy flag) is the one stored in that Secret. When the existing
        cluster belongs to another environment it is left exactly as read. */
    lemma BrokersProvisionConnect(secretEntries: map<NamespacedName, Secret>,
                                  connectEntries: map<NamespacedName, KafkaConnect>)
      ensures BrokersOutcome().Pass? ==>
        var kc := ConnectWrite(connectEntries)[ConnectKey(env)];
        var s := SecretWrite(secretEntries)[ConnectSecretKey(env)];
        && kc == BuiltConnect(connects.Fetched(ConnectKey(env)), env, secretData, xjoinImage)
        && s == BuiltSecret(secrets.Fetched(ConnectSecretKey(env)), env, secretData)
        && KeyOf(kc.meta) == ConnectKey(env) && KeyOf(s.meta) == ConnectSecretKey(env)
        && (env.kafka.enableLegacyStrimzi ==>
              && kc.spec.value.authentication.clientSecret.secretName == s.meta.name
              && s.stringData[kc.spec.value.authentication.clientSecret.key] ==
                   SecretField(secretData, "client.secret"))
      ensures SecretWriteOutcome().Pass? && ConnectKey(env) !in connects.createFailing
              && LabelConflict(connects.Fetched(ConnectKey(env)), env.name) ==>
        && BrokersOutcome().Fail? && BrokersOutcome().error.inner.EnvLabelConflict?
        && ConnectWrite(connectEntries)[ConnectKey(env)] == connects.Fetched(ConnectKey(env))
    {
      var existing := connects.Fetched(ConnectKey(env));
      BuiltConnectMetadata(existing, env, secretData, xjoinImage);
      BuiltConnectAuthentication(existing, env, secretData, xjoinImage);
      ConnectSecretBacksOAuth(secrets.Fetched(ConnectSecretKey(env)), env, secretData, xjoinImage);
    }

    /** createConnectSecret: read (or start) the Connect Secret, fill in the
        client secret and the environment's ownership, write it back. */
    method CreateConnectSecret() returns (r: Outcome)
      modifies secrets
      ensures r == SecretWriteOutcome()
      ensures secrets.entries == SecretWrite(old(secrets.entries))
    {
      var nn := ConnectSecretKey(env);
      var got := secrets.Create(nn);
      if got.Err? {
        return Fail(got.error);
      }
      var k := got.value;
      k := k.(stringData := map["client.secret" := SecretField(secretData, "client.secret")]);
      k := k.(meta := k.meta.(ownerReferences := [MakeOwnerReference(env)]));
      k := k.(meta := k.meta.(name := nn.name));
      k := k.(meta := k.meta.(namespace := nn.namespace));
      k := k.(meta := k.meta.(labels := map["env" := env.name]));
      r := secrets.Update(KeyOf(k.meta), k);
    }

    /** configureKafkaConnectCluster: read, check the env label, build, write back. */
    method ConfigureKafkaConnectCluster() returns (r: Outcome)
      modifies connects
      ensures r == ConnectWriteOutcome()
      ensures connects.entries == ConnectWrite(old(connects.entries))
    {
      var builder := new KafkaConnectBuilder(env, secretData, xjoinImage, connects);
      r := builder.Create();
      if r.Fail? {
        return;
      }
      r := builder.VerifyEnvLabel();
      if r.Fail? {
        return;
      }
      builder.BuildSpec();
      r := builder.UpdateCache();
    }

    /** configureBrokers: the Connect Secret, then the Connect cluster. */
    method ConfigureBrokers() returns (r: Outcome)
      modifies secrets, connects
      ensures r == BrokersOutcome()
      ensures secrets.entries == SecretWrite(old(secrets.entries))
      ensures connects.entries ==
        if SecretWriteOutcome().Fail? then old(connects.entries) else ConnectWrite(old(connects.entries))
    {
      r := CreateConnectSecret();
      if r.Fail? {
        return Fail(Wrapped("failed to create kafka connect cluster secret", r.error));
      }
      r := ConfigureKafkaConnectCluster();
      if r.Fail? {
        return Fail(Wrapped("failed to provision kafka connect cluster", r.error));
      }
    }

    /** ephemProcessTopicValues: aggregate what every app asks of the topic,
        then sync the result under `newTopicName`. */
    method EphemProcessTopicValues(apps: seq<App>, topic: TopicRequest, newTopicName: string)
      returns (r: Outcome)
      modifies tokenClient
      ensures var step := TopicStep(AggregateSpec(apps, topic.topicName, conversions, env.kafka.clusterReplicas),
                                    topic.topicName,
                                    newTopicName, adminHostname, tokenClient.respond);
        && tokenClient.issued == old(tokenClient.issued) + step.sent
        && (r.Fail? <==> step.failed)
        && (r.Fail? ==> ReportsRunError(step, r.error, apps, conversions))
      ensures AggregateSpec(apps, topic.topicName, conversions, env.kafka.clusterReplicas).None? ==>
        && r.Fail? && r.error.NoConversion? && r.error.key !in conversions
        && r.error.key in GroupConfig(Matching(apps, topic.topicName))
      ensures AggregateSpec(apps, topic.topicName, conversions, env.kafka.clusterReplicas).Some? ==>
        r == SyncSpec(adminHostname, newTopicName,
                      AggregateSpec(apps, topic.topicName, conversions, env.kafka.clusterReplicas).value,
                      tokenClient.respond).outcome
    {
      var settings := AggregateSettings(apps, topic.topicName, conversions, env.kafka.clusterReplicas);
      if settings.Err? {
        return Fail(settings.error);
      }
      r := SyncTopic(tokenClient, adminHostname, newTopicName, settings.value);
    }

    /** processTopics: list the environment's apps, then process each topic the
        app requests in order, stopping at the first error; the provider's
        topic list is replaced only when every topic went through. */
    method ProcessTopics(app: App, appList: Result<seq<App>>) returns (r: Outcome)
      modifies this, tokenClient
      ensures appList.Err? ==>
        && r == Fail(Wrapped("Topic creation failed: Error listing apps", appList.error))
        && config == old(config) && tokenClient.issued == old(tokenClient.issued)
      ensures appList.Ok? ==>
        var run := ProcessTopicsRun(app.kafkaTopics, appList.value, env, adminHostname, conversions,
                                    tokenClient.respond);
        && tokenClient.issued == old(tokenClient.issued) + run.sent
        && (r.Pass? <==> !run.failed)
        && (r.Fail? ==> ReportsRunError(run, r.error, appList.value, conversions))
        && config == (if r.Pass? then old(config).(topics := TopicConfigs(env.name, app.kafkaTopics))
                      else old(config))
    {
      if appList.Err? {
        return Fail(Wrapped("Topic creation failed: Error listing apps", appList.error));
      }
      var topicConfig;
      r, topicConfig := ProcessEachTopic(appList.value, app.kafkaTopics);
      if r.Pass? {
        config := config.(topics := topicConfig);
      }
    }

    /** The loop of processTopics over the app's topics. */
    method ProcessEachTopic(apps: seq<App>, topics: seq<TopicRequest>) returns (r: Outcome, topicConfig: seq<TopicConfig>)
      modifies tokenClient
      ensures var run := ProcessTopicsRun(topics, apps, env, adminHostname, conversions, tokenClient.respond);
        && tokenClient.issued == old(tokenClient.issued) + run.sent
        && (r.Pass? <==> !run.failed)
        && (r.Fail? ==> ReportsRunError(run, r.error, apps, conversions))
        && (r.Pass? ==> topicConfig == TopicConfigs(env.name, topics))
    {
      ghost var respond := tokenClient.respond;
      ghost var aggs := Aggregates(apps, topics, conversions, env.kafka.clusterReplicas);
      topicConfig := [];
      r := Pass;
      var i := 0;
      while i < |topics| && r.Pass?
        invariant 0 <= i <= |topics|
        invariant tokenClient.issued ==
          old(tokenClient.issued) + RunUpTo(topics, aggs, env.name, adminHostname, respond, i).sent
        invariant r.Pass? <==> !RunUpTo(topics, aggs, env.name, adminHostname, respond, i).failed
        invariant r.Fail? ==> ReportsRunError(RunUpTo(topics, aggs, env.name, adminHostname, respond, i), r.error, apps,
                                              conversions)
        invariant r.Pass? ==> topicConfig == TopicConfigs(env.name, topics[..i])
      {
        ghost var before := tokenClient.issued;
        var topic := topics[i];
        var topicName := EphemTopicName(env.name, topic.topicName);
        r := EphemProcessTopicValues(apps, topic, topicName);
        ProcessTopicsStep(topics, apps, env, adminHostname, conversions, respond, i,
                          old(tokenClient.issued), before, tokenClient.issued, r);
        if r.Pass? {
          TopicConfigsExtend(env.name, topics, i);
          topicConfig := topicConfig + [TopicConfig(topicName, topic.topicName)];
        }
        i := i + 1;
      }
      if r.Fail? {
        RunUpToFailedStable(topics, aggs, env.name, adminHostname, respond, i, |topics|);
      } else {
        assert topics[..i] == topics;
      }
    }

    /** Provide: run the app's Cyndi pipeline when it has one enabled (its
        outcome is given), then, when the app requests topics, process them
        and hand the provider's Kafka configuration to the app. */
    method Provide(app: App, cyndiEnabled: bool, cyndi: Outcome, appList: Result<seq<App>>)
      returns (r: Outcome, kafka: Option<KafkaConfig>)
      modifies this, tokenClient
      ensures (cyndiEnabled && cyndi.Fail?) || app.kafkaTopics == [] ==>
        && r == (if cyndiEnabled && cyndi.Fail? then cyndi else Pass)
        && kafka.None? && config == old(config) && tokenClient.issued == old(tokenClient.issued)
      ensures kafka.Some? ==>
        && r.Pass? && app.kafkaTopics != [] && appList.Ok?
        && kafka.value == config
        && config.topics == TopicConfigs(env.name, app.kafkaTopics)
        && config.brokers == old(config).brokers
      ensures !(cyndiEnabled && cyndi.Fail?) && app.kafkaTopics != [] && appList.Err? ==>
        && r == Fail(Wrapped("Topic creation failed: Error listing apps", appList.error))
        && kafka.None? && config == old(config) && tokenClient.issued == old(tokenClient.issued)
      ensures !(cyndiEnabled && cyndi.Fail?) && app.kafkaTopics != [] && appList.Ok? ==>
        var run := ProcessTopicsRun(app.kafkaTopics, appList.value, env, adminHostname, conversions,
                                    tokenClient.respond);
        && tokenClient.issued == old(tokenClient.issued) + run.sent
        && (r.Pass? <==> !run.failed)
        && (r.Fail? ==> ReportsRunError(run, r.error, appList.value, conversions))
        && (kafka.Some? <==> !run.failed)
        && (r.Fail? ==> config == old(config))
    {
      kafka := None;
      if cyndiEnabled && cyndi.Fail? {
        return cyndi, None;
      }
      if app.kafkaTopics == [] {
        return Pass, None;
      }
      r := ProcessTopics(app, appList);
      if r.Fail? {
        return;
      }
      kafka := Some(config);
    }
  }

  /** NewManagedEphemKafka: read the credentials Secret, make sure an admin
      client is cached for the admin host (never replacing one), build the
      provider around that client with the single managed broker and no
      topics, and provision the Kafka Connect secret and cluster. The
      provider is returned even when provisioning fails. */
  method NewManagedEphemKafka(env: ClowdEnvironment, secret: Result<map<string, string>>, clients: ClientCache,
                              server: Request -> Reply, connects: ObjectCache<KafkaConnect>,
                              secrets: ObjectCache<Secret>, conversions: map<string, Converter>,
                              xjoinImage: string)
    returns (p: ManagedEphemProvider?, r: Outcome)
    modifies clients, connects, secrets
    ensures secret.Err? ==>
      && p == null && r == Fail(secret.error)
      && clients.entries == old(clients.entries)
      && connects.entries == old(connects.entries) && secrets.entries == old(secrets.entries)
    ensures secret.Ok? ==>
      var host := SecretField(secret.value, "admin.url");
      && p != null && fresh(p)
      && host in clients.entries
      && (host in old(clients.entries) ==> clients.entries == old(clients.entries))
      && (host !in old(clients.entries) ==>
            && fresh(clients.entries[host])
            && clients.entries == old(clients.entries)[host := clients.entries[host]]
            && clients.entries[host].respond == server)
      && p.tokenClient == clients.entries[host] && p.adminHostname == host
      && p.env == env && p.secretData == secret.value && p.connects == connects && p.secrets == secrets
      && p.xjoinImage == xjoinImage && p.conversions == conversions
      && p.config == KafkaConfig([ManagedBroker(secret.value)], [])
      && r == p.BrokersOutcome()
      && secrets.entries == p.SecretWrite(old(secrets.entries))
      && connects.entries ==
           if p.SecretWriteOutcome().Fail? then old(connects.entries) else p.ConnectWrite(old(connects.entries))
  {
    if secret.Err? {
      return null, Fail(secret.error);
    }
    var data := secret.value;
    var adminHostname := SecretField(data, "admin.url");
    clients.CacheClientIfAbsent(adminHostname, server);
    var client := clients.ReadCache(adminHostname);
    p := new ManagedEphemProvider(env, connects, secrets, client, adminHostname, data, xjoinImage, conversions,
                                  KafkaConfig([ManagedBroker(data)], []));
    r := p.ConfigureBrokers();
  }
}
