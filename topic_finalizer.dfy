/** Deleting an environment's remote topics when it is torn down
    (managed-ephem.go, NewManagedEphemKafkaFinalizer). */
module TopicFinalizer {
  import opened Base
  import opened AdminApi
  import opened Environment
  import opened ClientCaching
  import opened TopicSync

  /** A DELETE succeeds with status 200 or 204. */
  predicate DeleteAccepted(reply: Reply)
  {
    reply.Response? && (reply.status == 200 || reply.status == 204)
  }

  /** The listed names that start with `prefix`, in list order. */
  function DeleteTargets(names: seq<string>, prefix: string): seq<string>
  {
    if names == [] then []
    else (if prefix <= names[0] then [names[0]] else []) + DeleteTargets(names[1..], prefix)
  }

  /** One DELETE per name, in order. */
  function DeleteRequests(host: string, names: seq<string>): seq<Request>
  {
    seq(|names|, i requires 0 <= i < |names| => Delete(TopicUrl(host, names[i])))
  }

  /** The deletion loop over the listed names against a server that answers
      `respond`: names without the prefix are skipped, and the first refused or
      failed DELETE ends the run. */
  function DeleteRun(host: string, prefix: string, names: seq<string>, respond: Request -> Reply): Trace
  {
    if names == [] then Trace([], Pass)
    else if !(prefix <= names[0]) then DeleteRun(host, prefix, names[1..], respond)
    else
      var req := Delete(TopicUrl(host, names[0]));
      match respond(req)
      case TransportFailure => Trace([req], Fail(Transport))
      case Response(status, _) =>
        if status == 200 || status == 204 then
          var rest := DeleteRun(host, prefix, names[1..], respond);
          Trace([req] + rest.sent, rest.outcome)
        else Trace([req], Fail(DeleteRejected(status)))
  }

  /** Exactly the listed names with the prefix are chosen, in list order. */
  lemma {:induction false} DeleteTargetsSpec(names: seq<string>, prefix: string)
    ensures forall n :: n in DeleteTargets(names, prefix) <==> n in names && prefix <= n
    ensures |DeleteTargets(names, prefix)| <= |names|
    ensures forall n :: n in names && prefix <= n ==>
      multiset(DeleteTargets(names, prefix))[n] == multiset(names)[n]
  {
    if names != [] {
      DeleteTargetsSpec(names[1..], prefix);
      assert names == [names[0]] + names[1..];
    }
  }

  lemma DeleteTargetsCons(names: seq<string>, prefix: string, host: string)
    requires names != []
    ensures DeleteRequests(host, DeleteTargets(names, prefix)) ==
      (if prefix <= names[0] then [Delete(TopicUrl(host, names[0]))] else [])
      + DeleteRequests(host, DeleteTargets(names[1..], prefix))
  {
  }

  /** The run sends, in list order, DELETEs for a prefix of the chosen names. */
  lemma {:induction false} DeleteRunInOrder(host: string, prefix: string, names: seq<string>, respond: Request -> Reply)
    ensures var t := DeleteRun(host, prefix, names, respond);
      var all := DeleteRequests(host, DeleteTargets(names, prefix));
      |t.sent| <= |all| && t.sent == all[..|t.sent|]
  {
    if names != [] {
      DeleteRunInOrder(host, prefix, names[1..], respond);
      DeleteTargetsCons(names, prefix, host);
    }
  }

  /** Every DELETE but the last was accepted, and a failed run ends with the
      DELETE that was not: the first failure stops the loop. */
  lemma {:induction false} DeleteRunStopsAtFirstFailure(host: string, prefix: string, names: seq<string>,
                                                        respond: Request -> Reply)
    ensures var t := DeleteRun(host, prefix, names, respond);
      && (forall i :: 0 <= i < |t.sent| - 1 ==> DeleteAccepted(respond(t.sent[i])))
      && (t.outcome.Fail? ==> t.sent != [] && !DeleteAccepted(respond(t.sent[|t.sent| - 1])))
  {
    if names != [] {
      DeleteRunStopsAtFirstFailure(host, prefix, names[1..], respond);
      if prefix <= names[0] {
        var req := Delete(TopicUrl(host, names[0]));
        if DeleteAccepted(respond(req)) {
          var t, rest := DeleteRun(host, prefix, names, respond), DeleteRun(host, prefix, names[1..], respond);
          assert t.sent == [req] + rest.sent;
          forall i | 0 <= i < |t.sent| - 1 ensures DeleteAccepted(respond(t.sent[i])) {
            if i > 0 { assert t.sent[i] == rest.sent[i - 1]; }
          }
        }
      }
    }
  }

  /** The run succeeds exactly when every chosen name's DELETE was sent and accepted. */
  lemma {:induction false} DeleteRunSucceeds(host: string, prefix: string, names: seq<string>, respond: Request -> Reply)
    ensures var t := DeleteRun(host, prefix, names, respond);
      var all := DeleteRequests(host, DeleteTargets(names, prefix));
      t.outcome.Pass? <==> t.sent == all && forall i :: 0 <= i < |all| ==> DeleteAccepted(respond(all[i]))
  {
    if names != [] {
      DeleteRunSucceeds(host, prefix, names[1..], respond);
      DeleteRunInOrder(host, prefix, names, respond);
      DeleteTargetsCons(names, prefix, host);
      var rest := DeleteRequests(host, DeleteTargets(names[1..], prefix));
      if prefix <= names[0] {
        var req := Delete(TopicUrl(host, names[0]));
        var all := DeleteRequests(host, DeleteTargets(names, prefix));
        assert all == [req] + rest;
        if DeleteAccepted(respond(req)) {
          var t, tr := DeleteRun(host, prefix, names, respond), DeleteRun(host, prefix, names[1..], respond);
          assert t.sent == [req] + tr.sent && t.outcome == tr.outcome;
          assert t.sent == all <==> tr.sent == rest by {
            if t.sent == all { assert tr.sent == t.sent[1..] == all[1..] == rest; }
          }
          assert (forall i :: 0 <= i < |all| ==> DeleteAccepted(respond(all[i])))
             <==> (forall i :: 0 <= i < |rest| ==> DeleteAccepted(respond(rest[i]))) by {
            if forall i :: 0 <= i < |all| ==> DeleteAccepted(respond(all[i])) {
              forall i | 0 <= i < |rest| ensures DeleteAccepted(respond(rest[i])) {
                assert all[i + 1] == rest[i];
              }
            }
            if forall i :: 0 <= i < |rest| ==> DeleteAccepted(respond(rest[i])) {
              forall i | 0 <= i < |all| ensures DeleteAccepted(respond(all[i])) {
                if i > 0 { assert all[i] == rest[i - 1]; }
              }
            }
          }
        } else {
          assert !DeleteAccepted(respond(all[0]));
        }
      }
    }
  }

  /** The source's deletion loop over the listed topics. */
  method DeleteListedTopics(client: AdminClient, host: string, prefix: string, listed: seq<string>)
    returns (r: Outcome)
    modifies client
    ensures client.issued == old(client.issued) + DeleteRun(host, prefix, listed, client.respond).sent
    ensures r == DeleteRun(host, prefix, listed, client.respond).outcome
  {
    var i := 0;
    while i < |listed|
      invariant 0 <= i <= |listed|
      invariant old(client.issued) + DeleteRun(host, prefix, listed, client.respond).sent
             == client.issued + DeleteRun(host, prefix, listed[i..], client.respond).sent
      invariant DeleteRun(host, prefix, listed, client.respond).outcome
             == DeleteRun(host, prefix, listed[i..], client.respond).outcome
    {
      assert listed[i..][1..] == listed[i + 1..];
      var name := listed[i];
      if prefix <= name {
        var reply := client.Do(Delete(TopicUrl(host, name)));
        if reply.TransportFailure? {
          return Fail(Transport);
        }
        if reply.status != 204 && reply.status != 200 {
          return Fail(DeleteRejected(reply.status));
        }
      }
      i := i + 1;
    }
    return Pass;
  }

  /** Everything the finalizer does against a server answering `respond`,
      after the client has been looked up. */
  function FinalizeRun(host: string, envName: string, prefix: string, respond: Request -> Reply): Trace
  {
    var list := Get(ListUrl(host, envName));
    match respond(list)
    case TransportFailure => Trace([list], Fail(Transport))
    case Response(_, listed) =>
      var run := DeleteRun(host, prefix, listed, respond);
      Trace([list] + run.sent, run.outcome)
  }

  /** The finalizer: with no delete prefix it does nothing; otherwise it reads
      the credentials, makes sure a client is cached for the admin host (never
      replacing one), lists the environment's topics and deletes those with the
      prefix. The listing's status code is not checked. */
  method NewManagedEphemKafkaFinalizer(env: ClowdEnvironment, secret: Result<map<string, string>>,
                                       cache: ClientCache, server: Request -> Reply)
    returns (r: Outcome)
    modifies cache, cache.entries.Values
    ensures env.kafka.ephemManagedDeletePrefix == "" || secret.Err? ==>
      && cache.entries == old(cache.entries)
      && (forall c :: c in old(cache.entries.Values) ==> c.issued == old(c.issued))
      && r == (if env.kafka.ephemManagedDeletePrefix == "" then Pass else Fail(secret.error))
    ensures env.kafka.ephemManagedDeletePrefix != "" && secret.Ok? ==>
      var host := SecretField(secret.value, "admin.url");
      && host in cache.entries
      && (host in old(cache.entries) ==> cache.entries == old(cache.entries))
      && (host !in old(cache.entries) ==>
            && cache.entries == old(cache.entries)[host := cache.entries[host]]
            && fresh(cache.entries[host]) && cache.entries[host].respond == server)
      && var run := FinalizeRun(host, env.name, env.kafka.ephemManagedDeletePrefix, cache.entries[host].respond);
      && cache.entries[host].issued ==
           (if host in old(cache.entries) then old(cache.entries[host].issued) else []) + run.sent
      && r == run.outcome
      && (forall c :: c in old(cache.entries.Values) && c != cache.entries[host] ==> c.issued == old(c.issued))
  {
    var prefix := env.kafka.ephemManagedDeletePrefix;
    if prefix == "" {
      return Pass;
    }
    if secret.Err? {
      return Fail(secret.error);
    }
    var host := SecretField(secret.value, "admin.url");
    cache.CacheClientIfAbsent(host, server);
    var client := cache.ReadCache(host);
    var listing := client.Do(Get(ListUrl(host, env.name)));
    if listing.TransportFailure? {
      return Fail(Transport);
    }
    r := DeleteListedTopics(client, host, prefix, listing.listed);
  }
}
