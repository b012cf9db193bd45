/** The Kafka admin REST API as the provider sees it: the requests it sends,
    the replies it gets, and an authenticated client that records every
    request it issues. The server is an oracle: a function from request to reply. */
module AdminApi {
  import opened Base

  /** The settings pushed for a topic. The source sends `config` as a JSON list
      built by ranging over a Go map, so its order is unspecified; the model
      keeps the key/value pairs as a map. */
  datatype Settings = Settings(numPartitions: int, numReplicas: int, config: map<string, string>)

  /** The body of a create request: the topic name and its settings. */
  datatype CreatePayload = CreatePayload(name: string, settings: Settings)

  datatype Request =
    | Get(url: string)
    | Post(url: string, payload: CreatePayload)
    | Patch(url: string, settings: Settings)   // the settings alone, no name
    | Delete(url: string)

  /** A reply: a status code with the topic names decoded from the body (empty
      when the body is not a topic list), or a failure of the transport or of
      reading the body. */
  datatype Reply = Response(status: int, listed: seq<string>) | TransportFailure

  function TopicsUrl(host: string): string
  {
    host + "/api/v1/topics"
  }

  function TopicUrl(host: string, name: string): string
  {
    host + "/api/v1/topics/" + name
  }

  /** The listing URL with its server-side name filter; URL escaping is not modelled. */
  function ListUrl(host: string, envName: string): string
  {
    host + "/api/v1/topics?size=1000&filter=" + envName + ".*"
  }

  /** An authenticated HTTP client bound to one admin endpoint. */
  class AdminClient {
    const respond: Request -> Reply
    var issued: seq<Request>

    constructor (respond: Request -> Reply)
      ensures this.respond == respond && issued == []
    {
      this.respond := respond;
      issued := [];
    }

    /** Sends one request and returns the server's reply. */
    method Do(req: Request) returns (reply: Reply)
      modifies this
      ensures issued == old(issued) + [req]
      ensures reply == respond(req)
    {
      issued := issued + [req];
      reply := respond(req);
    }
  }
}
