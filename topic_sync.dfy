/** Pushing one topic's aggregated settings to the admin API: probe with GET,
    then create with POST when the topic is absent (404) or patch it otherwise
    (managed-ephem.go, the second half of ephemProcessTopicValues). */
module TopicSync {
  import opened Base
  import opened AdminApi

  /** The requests a protocol run sends, in order, and how it ends. */
  datatype Trace = Trace(sent: seq<Request>, outcome: Outcome)

  /** The write that follows a probe answered with `probeStatus`. */
  function WriteRequest(host: string, name: string, settings: Settings, probeStatus: int): Request
  {
    if probeStatus == 404 then Post(TopicsUrl(host), CreatePayload(name, settings))
    else Patch(TopicUrl(host, name), settings)
  }

  predicate WriteAccepted(status: int)
  {
    status == 200 || status == 201
  }

  /** What syncing `name` does against a server that answers `respond`. */
  function SyncSpec(host: string, name: string, settings: Settings, respond: Request -> Reply): Trace
  {
    var probe := Get(TopicUrl(host, name));
    match respond(probe)
    case TransportFailure => Trace([probe], Fail(Transport))
    case Response(probeStatus, _) =>
      var write := WriteRequest(host, name, settings, probeStatus);
      match respond(write)
      case TransportFailure => Trace([probe, write], Fail(Transport))
      case Response(status, _) =>
        if WriteAccepted(status) then Trace([probe, write], Pass)
        else if probeStatus == 404 then Trace([probe, write], Fail(CreateRejected(status)))
        else Trace([probe, write], Fail(UpdateRejected(status)))
  }

  /** How many of `reqs` are POSTs, and how many are PATCHes. */
  function CountPosts(reqs: seq<Request>): nat
  {
    if reqs == [] then 0 else (if reqs[0].Post? then 1 else 0) + CountPosts(reqs[1..])
  }

  function CountPatches(reqs: seq<Request>): nat
  {
    if reqs == [] then 0 else (if reqs[0].Patch? then 1 else 0) + CountPatches(reqs[1..])
  }

  /** The probe always comes first; when it fails in transport nothing is written. */
  lemma SyncProbesFirst(host: string, name: string, settings: Settings, respond: Request -> Reply)
    ensures var t := SyncSpec(host, name, settings, respond);
      && t.sent != []
      && t.sent[0] == Get(TopicUrl(host, name))
      && (respond(t.sent[0]).TransportFailure? ==> t.sent == [t.sent[0]] && t.outcome == Fail(Transport))
      && (respond(t.sent[0]).Response? ==> |t.sent| == 2)
  {
  }

  /** A 404 probe leads to exactly one POST, naming the topic and carrying its
      settings, and to no PATCH. */
  lemma SyncCreatesAbsentTopic(host: string, name: string, settings: Settings, respond: Request -> Reply)
    requires respond(Get(TopicUrl(host, name))).Response?
    requires respond(Get(TopicUrl(host, name))).status == 404
    ensures var t := SyncSpec(host, name, settings, respond);
      && CountPosts(t.sent) == 1 && CountPatches(t.sent) == 0
      && t.sent[1] == Post(TopicsUrl(host), CreatePayload(name, settings))
  {
    var t := SyncSpec(host, name, settings, respond);
    assert t.sent == [Get(TopicUrl(host, name)), Post(TopicsUrl(host), CreatePayload(name, settings))];
    assert t.sent[1..] == [t.sent[1]] && t.sent[1..][1..] == [];
    assert CountPosts(t.sent[1..]) == 1 && CountPatches(t.sent[1..]) == 0;
  }

  /** Any other probe status leads to exactly one PATCH of the settings alone,
      at the topic's own URL, and to no POST. */
  lemma SyncPatchesPresentTopic(host: string, name: string, settings: Settings, respond: Request -> Reply)
    requires respond(Get(TopicUrl(host, name))).Response?
    requires respond(Get(TopicUrl(host, name))).status != 404
    ensures var t := SyncSpec(host, name, settings, respond);
      && CountPosts(t.sent) == 0 && CountPatches(t.sent) == 1
      && t.sent[1] == Patch(TopicUrl(host, name), settings)
  {
    var t := SyncSpec(host, name, settings, respond);
    assert t.sent == [Get(TopicUrl(host, name)), Patch(TopicUrl(host, name), settings)];
    assert t.sent[1..] == [t.sent[1]] && t.sent[1..][1..] == [];
    assert CountPosts(t.sent[1..]) == 0 && CountPatches(t.sent[1..]) == 1;
  }

  /** The sync succeeds exactly when the probe and the write both get an
      answer and the write's status is 200 or 201; otherwise the error says
      which write was refused and with what status. */
  lemma SyncOutcome(host: string, name: string, settings: Settings, respond: Request -> Reply)
    ensures var t := SyncSpec(host, name, settings, respond);
      var probe := respond(Get(TopicUrl(host, name)));
      && (t.outcome.Pass? <==>
            probe.Response? && respond(t.sent[1]).Response? && WriteAccepted(respond(t.sent[1]).status))
      && (t.outcome.Fail? && t.outcome.error.CreateRejected? ==>
            probe.Response? && probe.status == 404 && t.outcome.error.status == respond(t.sent[1]).status)
      && (t.outcome.Fail? && t.outcome.error.UpdateRejected? ==>
            probe.Response? && probe.status != 404 && t.outcome.error.status == respond(t.sent[1]).status)
  {
  }

  /** The source's sync: probe, then create or patch. */
  method SyncTopic(client: AdminClient, host: string, name: string, settings: Settings) returns (r: Outcome)
    modifies client
    ensures client.issued == old(client.issued) + SyncSpec(host, name, settings, client.respond).sent
    ensures r == SyncSpec(host, name, settings, client.respond).outcome
  {
    var probe := client.Do(Get(TopicUrl(host, name)));
    if probe.TransportFailure? {
      return Fail(Transport);
    }
    if probe.status == 404 {
      var reply := client.Do(Post(TopicsUrl(host), CreatePayload(name, settings)));
      if reply.TransportFailure? {
        return Fail(Transport);
      }
      if reply.status != 200 && reply.status != 201 {
        return Fail(CreateRejected(reply.status));
      }
    } else {
      var reply := client.Do(Patch(TopicUrl(host, name), settings));
      if reply.TransportFailure? {
        return Fail(Transport);
      }
      if reply.status != 200 && reply.status != 201 {
        return Fail(UpdateRejected(reply.status));
      }
    }
    return Pass;
  }
}
