# Managed-ephemeral Kafka provider, modelled in Dafny

This project models Clowder's managed-ephemeral Kafka provider (`controllers/cloud.redhat.com/providers/kafka/managed-ephem.go`).
In ephemeral environments Clowder provides Kafka through a managed Kafka service, and this provider does four things:

- It builds an admin client for the service's admin host from a credentials Secret. The client is cached per host and never replaced.
- It provisions a Kafka Connect cluster (a Strimzi `KafkaConnect`) and the Secret holding its OAuth client secret.
- For every topic an app asks for, it merges what every app in the environment asks of that topic. The merged settings are pushed to the admin REST API: a GET probe, then a POST creates the topic when it is absent (404), and a PATCH updates it otherwise.
- When the environment is deleted, it lists the environment's remote topics and deletes those carrying the configured prefix, stopping at the first failure.

The model is split by the structure of the program:

| module | file | what it holds |
|---|---|---|
| `Base` | base.dfy | `Option`, `Result`, `Outcome` (an error return with no value), the provider's errors, Secret field lookup |
| `Environment` | environment.dfy | the parts of a ClowdEnvironment the provider reads |
| `AdminApi` | admin_api.dfy | admin REST requests and replies. `AdminClient` is a class that records every request it issues; the server is a function from request to reply |
| `ClientCaching` | client_cache.dfy | the process-wide client cache, a class over a `map` |
| `TopicAggregation` | topic_aggregation.dfy | merging the apps' requests for one topic: collection loops, conversion, replica and partition counts |
| `TopicSync` | topic_sync.dfy | the probe-then-create-or-patch protocol |
| `TopicFinalizer` | topic_finalizer.dfy | the environment finalizer and its deletion loop |
| `ConnectResources` | connect_resources.dfy | the KafkaConnect and Secret objects, and the resource cache they are written through |
| `ConnectBuilder` | connect_builder.dfy | `KafkaConnectBuilder` (a class) and the pure functions that say what it builds |
| `ManagedEphem` | managed_ephem.dfy | the provider class: constructor, Connect provisioning, topic processing, `Provide` |

Code that mutates state is modelled as methods that mutate state:

- The provider's `Config`.
- The builder's `kafkaConnect` and `namespacedName`.
- The client cache.
- The resource cache.
- The requests an HTTP client has issued.

Each such method is proved against a specification function of its inputs and old state. Those functions include `SyncSpec`, `DeleteRun`, `AggregateSpec`, `ProcessTopicsRun`, `BuiltConnect`, `SecretWrite` and `ConnectWrite`. The lemmas state what the source promises about them.

Where the code does something other than its names or comments suggest, the model follows the code:

- Legacy Strimzi flag. With the flag set, `setTLSAndAuthentication` (lines 647-650) returns at once. The Connect cluster therefore keeps OAuth and trusts no certificate. Without the flag it gets SCRAM-SHA-512 and the cluster CA. The flag's name suggests the opposite assignment.
- Topics no request matches. When no request matches a topic, no count is computed, so replicas and partitions stay 0 (lines 371-401). The replica cap then still applies, so a cap below 1 gives one replica. This is kept as the code has it.
- Error body text. On a refused create or update, the code reads the response body after closing it (lines 441-445 and 468-472). The model keeps the status code in the error and not the body text.

## Model

| member | source | states |
|---|---|---|
| `AdminApi.AdminClient.constructor` | controllers/cloud.redhat.com/providers/kafka/managed-ephem.go:155-161 | a new client talks to the given admin endpoint and has issued nothing |
| `AdminApi.AdminClient.Do` | controllers/cloud.redhat.com/providers/kafka/managed-ephem.go:462 | sending a request appends it to the issued requests and returns the server's reply to it |
| `ClientCaching.ClientCache.constructor` | controllers/cloud.redhat.com/providers/kafka/managed-ephem.go:115 | the cache starts empty |
| `ClientCaching.ClientCache.SetCache` | controllers/cloud.redhat.com/providers/kafka/managed-ephem.go:119-123 | the client is stored under its hostname, and every other entry is unchanged |
| `ClientCaching.ClientCache.ReleaseCache` | controllers/cloud.redhat.com/providers/kafka/managed-ephem.go:125-129 | exactly the hostname's entry is removed |
| `ClientCaching.ClientCache.ReadCache` | controllers/cloud.redhat.com/providers/kafka/managed-ephem.go:131-135 | the result is non-null exactly when the hostname is cached, and then it is the cached client |
| `ClientCaching.ClientCache.CacheClientIfAbsent` | controllers/cloud.redhat.com/providers/kafka/managed-ephem.go:154-164 | afterwards the host is cached; an existing client is never replaced; otherwise exactly one fresh client for the server is added, having issued nothing |
| `TopicAggregation.EphemTopicNameInjective` | controllers/cloud.redhat.com/providers/kafka/managed-ephem.go:317-319 | within one environment, two requested names map to the same remote topic name exactly when they are equal |
| `TopicAggregation.MatchingRequestsSpec` | controllers/cloud.redhat.com/providers/kafka/managed-ephem.go:335-339 | a request of one app takes part exactly when its topic name is the wanted one |
| `TopicAggregation.MatchingSpec` | controllers/cloud.redhat.com/providers/kafka/managed-ephem.go:333-339 | the requests taken from all apps are exactly the apps' requests carrying the wanted name |
| `TopicAggregation.FilterMapPermutation` | controllers/cloud.redhat.com/providers/kafka/managed-ephem.go:340-346 | values collected from two orderings of the same requests are permutations of each other |
| `TopicAggregation.GroupConfigSpec` | controllers/cloud.redhat.com/providers/kafka/managed-ephem.go:342-347 | the grouped config has exactly the keys some matching request sets; each key's list is non-empty and holds exactly the values given for that key |
| `TopicAggregation.AppendConfigValues` | controllers/cloud.redhat.com/providers/kafka/managed-ephem.go:342-347 | adding one request appends each of its values to its key's list, creating missing lists, whatever order the keys are visited in |
| `TopicAggregation.CollectStep` | controllers/cloud.redhat.com/providers/kafka/managed-ephem.go:340-347 | taking one more matching request extends the grouped config and the replica and partition lists by that request's values |
| `TopicAggregation.CollectTopicRequests` | controllers/cloud.redhat.com/providers/kafka/managed-ephem.go:329-350 | the nested loops compute the grouped config and the replica and partition lists of all matching requests, in app order then request order |
| `TopicAggregation.ConvertConfig` | controllers/cloud.redhat.com/providers/kafka/managed-ephem.go:352-366 | conversion succeeds exactly when every grouped key has a converter, giving each key's converter applied to its values; otherwise the error names a grouped key that has no converter |
| `TopicAggregation.MaxOf` | controllers/cloud.redhat.com/providers/kafka/managed-ephem.go:372-376 | the maximum is one of the values and no value exceeds it |
| `TopicAggregation.TopicCount` | controllers/cloud.redhat.com/providers/kafka/managed-ephem.go:368-401 | a count is 0 with no requests, the largest request when some request is at least 1, and 3 when all requests are below 1 |
| `TopicAggregation.TopicCountPermutation` | controllers/cloud.redhat.com/providers/kafka/managed-ephem.go:371-401 | the count depends only on the multiset of requested values |
| `TopicAggregation.ClampReplicas` | controllers/cloud.redhat.com/providers/kafka/managed-ephem.go:403-407 | a cap below 1 forces one replica; otherwise the result is the smaller of the cap and the computed replicas |
| `TopicAggregation.AggregateFailsOnUnknownKey` | controllers/cloud.redhat.com/providers/kafka/managed-ephem.go:354-366 | aggregation fails exactly when some app's request for the topic sets a key with no converter |
| `TopicAggregation.AggregateConfigKeys` | controllers/cloud.redhat.com/providers/kafka/managed-ephem.go:342-366 | a successful aggregation's config has exactly the keys some app's request for the topic sets, each mapped to its converter applied to every value given |
| `TopicAggregation.AggregateCounts` | controllers/cloud.redhat.com/providers/kafka/managed-ephem.go:368-407 | partitions and replicas follow the max-or-3 rule (0 without requests); replicas are then capped, and a cap below 1 gives 1 |
| `TopicAggregation.CapLeavesPartitionsAndConfig` | controllers/cloud.redhat.com/providers/kafka/managed-ephem.go:403-407 | the replica cap changes neither the partitions, nor the config, nor whether aggregation succeeds |
| `TopicAggregation.AggregateOrderIndependent` | controllers/cloud.redhat.com/providers/kafka/managed-ephem.go:329-413 | when every converter ignores the order of its values, the settings do not depend on the order of apps or requests |
| `TopicAggregation.AggregateSettings` | controllers/cloud.redhat.com/providers/kafka/managed-ephem.go:329-413 | the aggregation succeeds exactly when the specification does and then returns its settings; otherwise the error names a grouped key with no converter |
| `TopicSync.SyncProbesFirst` | controllers/cloud.redhat.com/providers/kafka/managed-ephem.go:415-420 | the first request is always the GET probe of the topic; a probe failing in transport ends the sync with nothing written; otherwise exactly one write follows |
| `TopicSync.SyncCreatesAbsentTopic` | controllers/cloud.redhat.com/providers/kafka/managed-ephem.go:422-446 | a 404 probe leads to exactly one POST, of the topic's name and settings, and no PATCH |
| `TopicSync.SyncPatchesPresentTopic` | controllers/cloud.redhat.com/providers/kafka/managed-ephem.go:447-473 | any other probe status leads to exactly one PATCH, of the settings alone at the topic's URL, and no POST |
| `TopicSync.SyncOutcome` | controllers/cloud.redhat.com/providers/kafka/managed-ephem.go:415-474 | the sync succeeds exactly when the probe and the write both get answers and the write's status is 200 or 201; a create or update rejection carries the write's status |
| `TopicSync.SyncTopic` | controllers/cloud.redhat.com/providers/kafka/managed-ephem.go:415-476 | the requests issued and the outcome are those of the sync specification |
| `TopicFinalizer.DeleteTargetsSpec` | controllers/cloud.redhat.com/providers/kafka/managed-ephem.go:240-241 | exactly the listed names with the prefix are chosen, each as often as it is listed |
| `TopicFinalizer.DeleteRunInOrder` | controllers/cloud.redhat.com/providers/kafka/managed-ephem.go:240-260 | the DELETEs sent are a prefix, in list order, of the DELETEs for the chosen names |
| `TopicFinalizer.DeleteRunStopsAtFirstFailure` | controllers/cloud.redhat.com/providers/kafka/managed-ephem.go:246-258 | every DELETE but the last was accepted, and a failed run ends with the DELETE that was not |
| `TopicFinalizer.DeleteRunSucceeds` | controllers/cloud.redhat.com/providers/kafka/managed-ephem.go:240-261 | the run succeeds exactly when every chosen name's DELETE was sent and accepted with 200 or 204 |
| `TopicFinalizer.DeleteListedTopics` | controllers/cloud.redhat.com/providers/kafka/managed-ephem.go:240-261 | the deletion loop issues the requests of the deletion specification and returns its outcome |
| `TopicFinalizer.NewManagedEphemKafkaFinalizer` | controllers/cloud.redhat.com/providers/kafka/managed-ephem.go:191-261 | with no prefix it does nothing. A failed credentials read is returned unchanged. Otherwise a client is ensured for the admin host without replacing one, the listing GET then the deletions are issued on it alone, and their outcome is returned |
| `ConnectResources.ObjectCache.constructor` | controllers/cloud.redhat.com/providers/kafka/managed-ephem.go:556 | the resource cache that the builder's and the Secret's reads and writes go through starts empty over the given cluster content and failure sets |
| `ConnectResources.ObjectCache.Create` | controllers/cloud.redhat.com/providers/kafka/managed-ephem.go:59-61 | reading a key either fails, leaving the cache unchanged, or returns the cluster's object (an empty one when absent) and records it |
| `ConnectResources.ObjectCache.Update` | controllers/cloud.redhat.com/providers/kafka/managed-ephem.go:72-74 | writing succeeds only for a key created before and not refused, replacing exactly that entry; otherwise nothing changes |
| `ConnectBuilder.BuiltConnectMetadata` | controllers/cloud.redhat.com/providers/kafka/managed-ephem.go:668-681 | the built object sits at the Connect cluster's key, carries only the environment's label, is owned by the environment, and keeps every annotation while switching connector resources on |
| `ConnectBuilder.BuiltConnectAuthentication` | controllers/cloud.redhat.com/providers/kafka/managed-ephem.go:630-666 | with the legacy flag: OAuth with the credentials' client id and token URL, the secret from the Connect Secret, and no trusted certificate. Without it: SCRAM-SHA-512 as the Connect user, trusting the cluster CA |
| `ConnectBuilder.BuiltConnectSpecFields` | controllers/cloud.redhat.com/providers/kafka/managed-ephem.go:584-645 | replicas at least 1 (the configured count when positive); the configured version or 3.0.0; the configured image or the xjoin image; the credentials' hostname as bootstrap server; the worker config. None of it depends on the object's previous spec |
| `ConnectBuilder.BuiltConnectResources` | controllers/cloud.redhat.com/providers/kafka/managed-ephem.go:530-552 | configured requests and limits are used as given; unset ones default to 300m/500Mi and 600m/800Mi |
| `ConnectBuilder.BuiltConnectIdempotent` | controllers/cloud.redhat.com/providers/kafka/managed-ephem.go:616-681 | rebuilding an object the builder produced changes nothing |
| `ConnectBuilder.StorageTopicsSeparate` | controllers/cloud.redhat.com/providers/kafka/managed-ephem.go:509-528 | the three Connect storage topics are distinct, and two environments never share one |
| `ConnectBuilder.ConnectSecretBacksOAuth` | controllers/cloud.redhat.com/providers/kafka/managed-ephem.go:52-77 | the Connect Secret sits where the OAuth client-secret reference points and holds the client secret under the referenced key; its binary data and annotations are kept |
| `ConnectBuilder.KafkaConnectBuilder.constructor` | controllers/cloud.redhat.com/providers/kafka/managed-ephem.go:495-500 | a new builder holds the environment and credentials, an empty object and a blank key |
| `ConnectBuilder.KafkaConnectBuilder.GetNamespacedName` | controllers/cloud.redhat.com/providers/kafka/managed-ephem.go:560-568 | the key returned is the Connect cluster's; it is recomputed when the cached name is blank or the object has no namespace; the object is untouched |
| `ConnectBuilder.KafkaConnectBuilder.Create` | controllers/cloud.redhat.com/providers/kafka/managed-ephem.go:554-558 | the object is reset then read through the cache at the Connect cluster's key. A refused read returns the error and leaves the object empty |
| `ConnectBuilder.KafkaConnectBuilder.VerifyEnvLabel` | controllers/cloud.redhat.com/providers/kafka/managed-ephem.go:571-582 | the check fails exactly when the existing object is labelled for another environment, naming the cluster, its namespace and that label; nothing is modified |
| `ConnectBuilder.KafkaConnectBuilder.BuildSpec` | controllers/cloud.redhat.com/providers/kafka/managed-ephem.go:616-645 | the object becomes the built object of its previous state |
| `ConnectBuilder.KafkaConnectBuilder.SetTLSAndAuthentication` | controllers/cloud.redhat.com/providers/kafka/managed-ephem.go:647-666 | with the legacy flag nothing changes; otherwise only the trusted certificates and the authentication are replaced |
| `ConnectBuilder.KafkaConnectBuilder.SetAnnotations` | controllers/cloud.redhat.com/providers/kafka/managed-ephem.go:668-681 | only the metadata changes: annotation added, owner reference, name, namespace and label set |
| `ConnectBuilder.KafkaConnectBuilder.UpdateCache` | controllers/cloud.redhat.com/providers/kafka/managed-ephem.go:683-685 | the object is written back under its own key, through the cache's update rule |
| `ManagedEphem.TopicConfigs` | controllers/cloud.redhat.com/providers/kafka/managed-ephem.go:306-309 | one topic config per requested topic, in order, pairing the environment-scoped name with the requested name |
| `ManagedEphem.ProcessTopicsStep` | controllers/cloud.redhat.com/providers/kafka/managed-ephem.go:297-310 | one pass of the topic loop after a run that has not failed extends the issued requests and the outcome by that topic's step |
| `ManagedEphem.RunUpToFailedStable` | controllers/cloud.redhat.com/providers/kafka/managed-ephem.go:302-304 | once a topic fails, no later topic is processed |
| `ManagedEphem.RunUpToProbesEachTopic` | controllers/cloud.redhat.com/providers/kafka/managed-ephem.go:297-310 | processing sends no DELETE and at most two requests per topic. A run that gets through sends exactly two per topic, each starting with the probe of the environment-scoped name, in order |
| `ManagedEphem.RunStopsAtFailedAggregate` | controllers/cloud.redhat.com/providers/kafka/managed-ephem.go:300-304 | a topic whose aggregation fails ends the run before anything is sent for it |
| `ManagedEphem.RunUpToFirstFailure` | controllers/cloud.redhat.com/providers/kafka/managed-ephem.go:297-304 | a failed run stopped at the first failing topic: every earlier topic went through, and the requests sent, the error reported and the topic named as failing are that topic's step: its sync error or, when its aggregation failed, nothing sent |
| `ManagedEphem.ProcessTopicsProbesEachTopic` | controllers/cloud.redhat.com/providers/kafka/managed-ephem.go:288-315 | processing an app's topics never deletes, and a successful run probes every topic's environment-scoped name in order |
| `ManagedEphem.ProcessTopicsStopsOnUnknownKey` | controllers/cloud.redhat.com/providers/kafka/managed-ephem.go:297-304 | a topic for which any app's request of the same name sets a key with no converter fails processing, sending at most two requests per earlier topic |
| `ManagedEphem.ManagedEphemProvider.constructor` | controllers/cloud.redhat.com/providers/kafka/managed-ephem.go:167-186 | the provider holds the environment, caches, client, admin host, credentials and initial config it is given |
| `ManagedEphem.ManagedEphemProvider.BrokersProvisionConnect` | controllers/cloud.redhat.com/providers/kafka/managed-ephem.go:100-113 | after successful provisioning the cache holds the built cluster and Secret, and with the legacy flag the cluster's OAuth secret reference resolves to the stored client secret. A label conflict fails provisioning and leaves the cluster as read |
| `ManagedEphem.ManagedEphemProvider.CreateConnectSecret` | controllers/cloud.redhat.com/providers/kafka/managed-ephem.go:52-77 | the outcome and the secret cache's new entries are those of writing the Connect Secret |
| `ManagedEphem.ManagedEphemProvider.ConfigureKafkaConnectCluster` | controllers/cloud.redhat.com/providers/kafka/managed-ephem.go:79-98 | the outcome and the Connect cache's new entries are those of reading, label-checking, building and writing the cluster |
| `ManagedEphem.ManagedEphemProvider.ConfigureBrokers` | controllers/cloud.redhat.com/providers/kafka/managed-ephem.go:100-113 | the Secret is written first. The cluster is touched only when the Secret succeeds. Each failure is wrapped with its context |
| `ManagedEphem.ManagedEphemProvider.EphemProcessTopicValues` | controllers/cloud.redhat.com/providers/kafka/managed-ephem.go:321-477 | a failed aggregation sends nothing and reports a key with no converter that some app's request for the topic sets; otherwise the issued requests and the outcome are those of syncing the aggregated settings under the new name |
| `ManagedEphem.ManagedEphemProvider.ProcessTopics` | controllers/cloud.redhat.com/providers/kafka/managed-ephem.go:288-315 | a failed app listing is wrapped and changes nothing. Otherwise the requests issued are those of processing the topics in order up to the first failure, and a failure returns the failing topic's own error (its sync error, or a key with no converter that some app's request for that topic sets); the topic list is replaced only when every topic went through |
| `ManagedEphem.ManagedEphemProvider.ProcessEachTopic` | controllers/cloud.redhat.com/providers/kafka/managed-ephem.go:297-310 | the loop issues the requests of the processing run, fails exactly when it does with the failing topic's own error (its sync error, or a key with no converter that some app's request for that topic sets), and on success yields every topic's config |
| `ManagedEphem.ManagedEphemProvider.Provide` | controllers/cloud.redhat.com/providers/kafka/managed-ephem.go:264-286 | a failed Cyndi pipeline or an app without topics returns early and changes nothing. A failed app listing returns the wrapped error and sends nothing. Otherwise the requests issued are those of processing the app's topics, the call fails exactly when that processing fails, returning the failing topic's own error and leaving the config as it was, and on success the app gets the provider's config, with every topic and the broker unchanged |
| `ManagedEphem.NewManagedEphemKafka` | controllers/cloud.redhat.com/providers/kafka/managed-ephem.go:138-189 | a failed credentials read returns no provider and changes nothing. Otherwise a client is ensured for the admin host without replacing one. The provider gets that client, the given xjoin image and conversion table, the single managed broker on port 443 and no topics. The provisioning outcome is returned together with the provider |

## Left out

- The read-write mutex around the client cache (lines 117-134): the model is single-threaded, and concurrent access is not modelled.
- OAuth client-credentials construction (lines 155-161 and 211-217): the client is modelled as an `AdminClient` bound to a server function, and token exchange is not modelled.
- URL escaping of the listing filter (line 223), and JSON marshalling and unmarshalling of payloads and topic lists. Requests and replies are modelled as structured values. A reply that is not a topic list is read as an empty list.
- Reading response bodies (lines 231-235 and 252-255) is folded into the transport outcome of the reply. Error messages are modelled as error variants carrying status codes, without the body text.
- `http.NewRequest` failures (lines 242-245 and 457-460) and `json.Marshal` failures: they cannot happen for these well-formed values, so they are not modelled.
- TopicAggregation.MaxOf: counts are kept as integers rather than as decimal strings parsed back with `strconv`. The `IntMax` and `Atoi` error branches (lines 372-379 and 388-395) cannot fire on `Itoa` output, so they are not modelled.
- Converter errors: the converters' error result is discarded by the source (line 357), so a converter is modelled as a total function of the values.
- Config order: the pushed config is a map of key to value. The source's list order comes from ranging over a Go map and is unspecified, so it is not modelled.
- TopicAggregation.ConvertConfig: which missing key the error names is left open, matching Go's map iteration order.
- AdminApi.AdminClient: the admin server is a fixed function from request to reply, so a reply cannot depend on earlier requests. When an app lists one topic name twice, the model sends a POST for each, while the real server would answer the second probe with 200 after the first POST, giving a PATCH. Likewise a name listed twice in the finalizer is deleted and answered independently each time.
- ManagedEphem.ManagedEphemProvider.Provide: the source hands the app a pointer to the provider's `Config` (line 283), so later changes to the provider's topics show through it. The model returns a copy of the config as it is at that moment, and this aliasing is not captured.
- The int32 widths of the environment's replica counts and the topic requests are not modelled; counts are unbounded integers.
- Helpers defined elsewhere in the source's package are not part of this model: `getConnectNamespace`, `getConnectClusterName`, `getKafkaName`, `getConnectClusterUserName`, `IMAGE_KAFKA_XJOIN`. Their results are inputs (`DerivedNames`, `xjoinImage`).
- `createCyndiPipeline` and `GetAppsInEnv` are not part of this model: their outcomes are inputs to `Provide` and `ProcessTopics`.
- The Kubernetes client's Secret fetch is an input `Result`.
- The resource cache of rhc-osdk-utils is modelled as `ObjectCache` over the cluster's existing objects and the keys whose read or write is refused.
- Resource lists are modelled as CPU and memory strings rather than raw JSON (lines 530-552). The worker config is modelled as a string map rather than raw JSON (lines 509-528).
- Before `Create`, the builder's object is a nil pointer in the source; the model uses an empty object.
- The controller's metrics HTTP server and the web provider are outside this provider and are not part of this model.
