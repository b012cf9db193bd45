/** The process-wide cache of authenticated admin clients, keyed by the admin
    endpoint's hostname. The source guards it with a read-write lock; the model
    is single-threaded. */
module ClientCaching {
  import opened AdminApi

  class ClientCache {
    var entries: map<string, AdminClient>

    constructor ()
      ensures entries == map[]
    {
      entries := map[];
    }

    /** Stores `client` for `hostname`, replacing any previous entry. */
    method SetCache(hostname: string, client: AdminClient)
      modifies this
      ensures entries == old(entries)[hostname := client]
    {
      entries := entries[hostname := client];
    }

    /** Forgets the client for `hostname` and nothing else. */
    method ReleaseCache(hostname: string)
      modifies this
      ensures entries == old(entries) - {hostname}
    {
      entries := entries - {hostname};
    }

    /** The cached client, or null when none is cached for `hostname`. */
    method ReadCache(hostname: string) returns (client: AdminClient?)
      ensures client != null <==> hostname in entries
      ensures client != null ==> client == entries[hostname]
    {
      client := if hostname in entries then entries[hostname] else null;
    }

    /** What both constructors do before using the cache: build a client for
        `hostname` (talking to `server`) only when none is cached, so an existing
        client is never replaced. */
    method CacheClientIfAbsent(hostname: string, server: Request -> Reply)
      modifies this
      ensures hostname in entries
      ensures hostname in old(entries) ==> entries == old(entries)
      ensures hostname !in old(entries) ==>
        && fresh(entries[hostname])
        && entries == old(entries)[hostname := entries[hostname]]
        && entries[hostname].respond == server
        && entries[hostname].issued == []
    {
      if hostname !in entries {
        var client := new AdminClient(server);
        SetCache(hostname, client);
      }
    }
  }
}
