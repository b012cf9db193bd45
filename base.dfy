/** Shared vocabulary of the managed-ephemeral Kafka provider: optional values,
    the errors the provider can return, and results that carry either. */
module Base {

  datatype Option<+T> = None | Some(value: T)

  /** A Kubernetes object key. */
  datatype NamespacedName = NamespacedName(namespace: string, name: string)

  /** The errors the provider returns. Collaborator failures (secret fetch, app
      listing, the resource cache) are opaque: only that they failed is kept. */
  datatype Error =
    | NoConversion(key: string)              // a topic config key without a converter
    | Transport                               // the HTTP client or body read failed
    | CreateRejected(status: int)             // POST of a new topic answered outside 200/201
    | UpdateRejected(status: int)             // PATCH of a topic answered outside 200/201
    | DeleteRejected(status: int)             // DELETE of a topic answered outside 200/204
    | EnvLabelConflict(clusterName: string, clusterNamespace: string, envLabel: string)
    | ResourceCacheFailure(object: NamespacedName)
    | SecretFetchFailure
    | AppListFailure
    | Wrapped(context: string, inner: Error)

  datatype Result<+T> = Ok(value: T) | Err(error: Error)

  /** An error return that carries no value (Go's plain `error`). */
  datatype Outcome = Pass | Fail(error: Error)

  /** Reading a key of a Go `map[string][]byte` as a string: a missing key reads as "". */
  function SecretField(data: map<string, string>, key: string): string
  {
    if key in data then data[key] else ""
  }
}
