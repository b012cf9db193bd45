/** The part of a ClowdEnvironment that the managed-ephemeral Kafka provider reads. */
module Environment {
  import opened Base

  /** A CPU/memory resource list (the source keeps it as raw JSON). */
  datatype ResourceList = ResourceList(cpu: string, memory: string)

  /** The environment's overrides for the Kafka Connect cluster; "" and 0 mean unset. */
  datatype ConnectOverrides = ConnectOverrides(
    replicas: int,
    version: string,
    image: string,
    requests: Option<ResourceList>,
    limits: Option<ResourceList>)

  datatype KafkaProviderConfig = KafkaProviderConfig(
    ephemManagedDeletePrefix: string,
    ephemManagedSecretRef: NamespacedName,
    enableLegacyStrimzi: bool,
    clusterReplicas: int,          // the cluster-wide replica cap; < 1 means unset
    connect: ConnectOverrides)

  /** Names the source derives from the environment with helpers defined
      elsewhere in its package; the model takes them as given. */
  datatype DerivedNames = DerivedNames(
    connectNamespace: string,
    connectClusterName: string,
    kafkaName: string,
    connectClusterUserName: string)

  datatype ClowdEnvironment = ClowdEnvironment(
    name: string,
    kafka: KafkaProviderConfig,
    derived: DerivedNames)

  /** An owner reference pointing at the environment of that name. */
  datatype OwnerReference = OwnerReference(environmentName: string)

  function MakeOwnerReference(env: ClowdEnvironment): OwnerReference
  {
    OwnerReference(env.name)
  }
}
