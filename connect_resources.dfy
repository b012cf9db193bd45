/** The Kubernetes objects the provider writes for the Kafka Connect cluster
    (a Strimzi KafkaConnect and its credentials Secret), and the resource cache
    it writes them through. */
module ConnectResources {
  import opened Base
  import opened Environment

  /** The metadata the provider reads and sets. */
  datatype ObjectMeta = ObjectMeta(
    name: string,
    namespace: string,
    labels: map<string, string>,
    annotations: map<string, string>,
    ownerReferences: seq<OwnerReference>)

  const EmptyMeta := ObjectMeta("", "", map[], map[], [])

  /** Where a secret value lives: a key of a named Secret. */
  datatype SecretKeyRef = SecretKeyRef(key: string, secretName: string)

  /** Where a SCRAM password lives: a key of a named Secret. */
  datatype PasswordSecretRef = PasswordSecretRef(password: string, secretName: string)

  /** The two ways the Connect cluster authenticates to Kafka. */
  datatype Authentication =
    | OAuth(clientId: string, clientSecret: SecretKeyRef, tokenEndpointUri: string)
    | ScramSha512(username: string, passwordSecret: PasswordSecretRef)
  {
    /** The `type` field Strimzi reads. */
    function Type(): string
    {
      match this
      case OAuth(_, _, _) => "oauth"
      case ScramSha512(_, _) => "scram-sha-512"
    }
  }

  datatype TrustedCertificate = TrustedCertificate(certificate: string, secretName: string)

  datatype ResourceRequirements = ResourceRequirements(requests: ResourceList, limits: ResourceList)

  datatype KafkaConnectSpec = KafkaConnectSpec(
    replicas: int,
    bootstrapServers: string,
    version: string,
    config: map<string, string>,
    image: string,
    resources: ResourceRequirements,
    authentication: Authentication,
    trustedCertificates: seq<TrustedCertificate>)

  /** A KafkaConnect object; `spec` is None until the provider builds one. */
  datatype KafkaConnect = KafkaConnect(meta: ObjectMeta, spec: Option<KafkaConnectSpec>)

  const EmptyConnect := KafkaConnect(EmptyMeta, None)

  datatype Secret = Secret(meta: ObjectMeta, data: map<string, string>, stringData: map<string, string>)

  const EmptySecret := Secret(EmptyMeta, map[], map[])

  /** The key an object is stored under: its own namespace and name. */
  function KeyOf(meta: ObjectMeta): NamespacedName
  {
    NamespacedName(meta.namespace, meta.name)
  }

  /** The resource cache for one kind of object. `Create` reads the object of
      that key from the cluster (an empty object when there is none) and
      remembers it; `Update` writes an object back under its own key (its
      caller passes `KeyOf` the object's metadata), which must have been
      created in this cache first. `existing` is the cluster's
      content and the two failing sets are the keys whose read or write the
      cluster refuses. */
  class ObjectCache<T> {
    const existing: map<NamespacedName, T>
    const empty: T
    const createFailing: set<NamespacedName>
    const updateFailing: set<NamespacedName>
    var entries: map<NamespacedName, T>

    constructor (existing: map<NamespacedName, T>, empty: T,
                 createFailing: set<NamespacedName>, updateFailing: set<NamespacedName>)
      ensures this.existing == existing && this.empty == empty
      ensures this.createFailing == createFailing && this.updateFailing == updateFailing
      ensures entries == map[]
    {
      this.existing := existing;
      this.empty := empty;
      this.createFailing := createFailing;
      this.updateFailing := updateFailing;
      entries := map[];
    }

    /** What a successful `Create` of `key` hands back. */
    function Fetched(key: NamespacedName): T
    {
      if key in existing then existing[key] else empty
    }

    method Create(key: NamespacedName) returns (r: Result<T>)
      modifies this
      ensures key in createFailing ==> r == Err(ResourceCacheFailure(key)) && entries == old(entries)
      ensures key !in createFailing ==> r == Ok(Fetched(key)) && entries == old(entries)[key := Fetched(key)]
    {
      if key in createFailing {
        return Err(ResourceCacheFailure(key));
      }
      var obj := Fetched(key);
      entries := entries[key := obj];
      return Ok(obj);
    }

    method Update(key: NamespacedName, obj: T) returns (r: Outcome)
      modifies this
      ensures
        if key in old(entries) && key !in updateFailing
        then r == Pass && entries == old(entries)[key := obj]
        else r == Fail(ResourceCacheFailure(key)) && entries == old(entries)
    {
      if key !in entries || key in updateFailing {
        return Fail(ResourceCacheFailure(key));
      }
      entries := entries[key := obj];
      return Pass;
    }
  }
}
