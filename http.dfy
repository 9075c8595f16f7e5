/** The network as the modelled code reaches it through `fetch`: a log of the
    requests issued, in order, and the replies the remote end gives, supplied
    in advance and consumed one per request. */
module Http {
  import opened Results
  import opened JsonValues

  datatype Method = GET | POST | PUT | DELETE

  /** One `fetch` call: HTTP method (`verb`), full URL, the access token sent in the
      `X-Shopify-Access-Token` header, and the JSON body if there is one.
      Every request also carries `Content-Type: application/json`. */
  datatype Request = Request(verb: Method, url: string, token: string, body: Option<Json>)

  /** A reply: its status, its body as text (`response.text()`), and what
      decoding that body yields (`response.json()`, which may throw). */
  datatype Reply = Reply(status: int, text: string, json: Result<Json>)

  /** `response.ok`: the status is in the range 200 to 299. */
  predicate IsOk(reply: Reply) {
    200 <= reply.status <= 299
  }

  /** The message of the error `fetch` rejects with when no reply comes. */
  const FetchFailed: string := "fetch failed"

  /** What a sequence of calls did on the network, and what it returned. */
  datatype Exchange<+T> = Exchange(sent: seq<Request>, result: T)

  /** The answer the next request gets: the first pending reply, or a
      network failure when none is pending. */
  function NextReply(replies: seq<Reply>): Result<Reply> {
    if replies == [] then Err(FetchFailed) else Ok(replies[0])
  }

  /** The replies still pending after `n` requests have each taken one. */
  function Drop(replies: seq<Reply>, n: nat): seq<Reply> {
    if n >= |replies| then [] else replies[n..]
  }

  /** The message of the `TypeError` thrown when code reads `key` from `null`. */
  function NullRead(key: string): string {
    "Cannot read properties of null (reading '" + key + "')"
  }

  class Network {
    /** Every request issued so far, oldest first. */
    var sent: seq<Request>
    /** The replies not yet consumed, in the order they will be given. */
    var replies: seq<Reply>

    constructor (replies: seq<Reply>)
      ensures sent == [] && this.replies == replies
    {
      sent := [];
      this.replies := replies;
    }

    /** `fetch(url, init)`: the request is recorded and answered by the next
        pending reply; with none pending it fails. */
    method Fetch(req: Request) returns (r: Result<Reply>)
      modifies this
      ensures sent == old(sent) + [req]
      ensures r == NextReply(old(replies))
      ensures replies == Drop(old(replies), 1)
    {
      sent := sent + [req];
      if replies == [] {
        r := Err(FetchFailed);
      } else {
        r := Ok(replies[0]);
        replies := replies[1..];
      }
    }
  }

  /** A state change on `net` that is exactly the exchange `e`: its requests
      were issued, one reply was consumed per request, and `r` is its result. */
  twostate predicate Performed<T>(net: Network, e: Exchange<T>, new r: T)
    reads net
  {
    net.sent == old(net.sent) + e.sent &&
    net.replies == Drop(old(net.replies), |e.sent|) &&
    r == e.result
  }

  /** `JSON.stringify({ query, variables })`: a member whose value is
      `undefined` is left out. */
  function GraphQLBody(query: Option<Json>, variables: Option<Json>): Json {
    JObject((if query.Some? then map["query" := query.value] else map[]) +
            (if variables.Some? then map["variables" := variables.value] else map[]))
  }

  /** The GraphQL response rule: the body is decoded; reading `errors` from a
      `null` body throws; a status outside 200-299 or a truthy `errors` (an
      empty array is truthy) throws an error whose message is `prefix`
      followed by the stringified `errors`, or the whole body when `errors`
      is falsy; otherwise the result is the body's `data`, which may be
      `undefined`. */
  function GraphQLOutcome(reply: Reply, prefix: string, stringify: Json -> string): (r: Result<Option<Json>>)
    ensures r.Ok? <==> IsOk(reply) && reply.json.Ok? && reply.json.value != JNull &&
                       !Present(Field(reply.json.value, "errors"))
    ensures r.Ok? ==> r.value == Field(reply.json.value, "data")
  {
    match reply.json
    case Err(m) => Err(m)
    case Ok(body) =>
      if body == JNull then Err(NullRead("errors"))
      else
        var errors := Field(body, "errors");
        if !IsOk(reply) || Present(errors) then Err(prefix + stringify(OrIfFalsy(errors, body)))
        else Ok(Field(body, "data"))
  }

  /** An empty `errors` array is an error, whatever the status and `data`. */
  lemma EmptyErrorsRejected(status: int, data: Json, prefix: string, stringify: Json -> string)
    ensures var body := JObject(map["errors" := JArray([]), "data" := data]);
      GraphQLOutcome(Reply(status, "", Ok(body)), prefix, stringify)
        == Err(prefix + stringify(JArray([])))
  {
    var body := JObject(map["errors" := JArray([]), "data" := data]);
    assert Field(body, "errors") == Some(JArray([]));
  }
}
