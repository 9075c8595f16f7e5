/** The stand-alone tool server (mcp/shopify-server.mjs): two tools over the
    Admin GraphQL API, its own GraphQL helper, and the registration of the
    request handlers on the server object. */
module McpServer {
  import opened Results
  import opened Text
  import opened JsonValues
  import opened Http
  import opened Shopify

  /** The server's own `getEnv`: an unset or empty variable is an error
      naming it. */
  function GetEnv(env: Env, name: string): (r: Result<string>)
    ensures r.Ok? <==> name in env && env[name] != ""
    ensures r.Ok? ==> r.value == env[name]
    ensures r.Err? ==> r.message == "Missing env: " + name
  {
    if name in env && env[name] != "" then Ok(env[name]) else Err("Missing env: " + name)
  }

  /** One property of a tool's input schema. */
  datatype PropertySpec = PropertySpec(key: string, kind: string, minimum: Option<int>,
                                       maximum: Option<int>, defaultValue: Option<int>)

  /** One entry of the tool list. */
  datatype ToolSpec = ToolSpec(name: string, description: string, properties: seq<PropertySpec>,
                               required: seq<string>, additionalProperties: bool)

  const ProductsTool: string := "shopify_products_graphql"
  const RawTool: string := "shopify_graphql_raw"

  /** The page size of the products tool when `first` is not given. */
  const DefaultFirst: int := 10

  /** The answer to a tools/list request. */
  const Tools: seq<ToolSpec> := [
    ToolSpec(ProductsTool, "List products via Admin GraphQL API",
             [PropertySpec("first", "integer", Some(1), Some(250), Some(DefaultFirst))], [], false),
    ToolSpec(RawTool, "Run a raw Admin GraphQL operation with variables",
             [PropertySpec("query", "string", None, None, None), PropertySpec("variables", "object", None, None, None)],
             ["query"], true)
  ]

  /** The products query: the most recently updated products, each with its
      id, title, featured image, first image and first variant's price. Its
      whitespace is not reproduced. */
  const ProductsQuery: string :=
    "#graphql query Products($first: Int!) { products(first: $first, sortKey: UPDATED_AT, reverse: true) "
    + "{ edges { node { id title featuredImage { url altText } images(first: 1) { edges { node { url altText } } } "
    + "variants(first: 1) { edges { node { id price { amount currencyCode } } } } } } } }"

  /** The names in the tool list. */
  function ToolNames(): (names: seq<string>)
    ensures |names| == |Tools|
    ensures forall k :: 0 <= k < |Tools| ==> names[k] == Tools[k].name
  {
    [Tools[0].name, Tools[1].name]
  }

  /** The tool list holds exactly the two tools; only the raw tool requires
      `query`, and the products tool's `first` is an integer from 1 to 250
      that defaults to the page size `DefaultFirst`. */
  lemma ToolTable()
    ensures ToolNames() == [ProductsTool, RawTool]
    ensures Tools[0].required == [] && Tools[1].required == ["query"]
    ensures Tools[0].properties == [PropertySpec("first", "integer", Some(1), Some(250), Some(DefaultFirst))]
    ensures !Tools[0].additionalProperties && Tools[1].additionalProperties
  {
  }

  /** The GraphQL operation a tool call runs: the query and the variables,
      each possibly `undefined`. */
  datatype GraphQLCall = GraphQLCall(query: Option<Json>, variables: Option<Json>)

  /** `req.params.arguments?.first ?? 10`. */
  function FirstArg(args: Option<Json>): (first: Json)
    ensures first != JNull
    ensures (args.Some? && args.value != JNull && Field(args.value, "first").Some? &&
             Field(args.value, "first").value != JNull) ==> first == Field(args.value, "first").value
    ensures (args.None? || args.value == JNull || Field(args.value, "first").None? ||
             Field(args.value, "first").value == JNull) ==> first == JInt(DefaultFirst)
  {
    var first := if args.None? || args.value == JNull then None else Field(args.value, "first");
    OrElse(first, JInt(DefaultFirst))
  }

  /** The GraphQL call a tool call asks for: the products query with `first`
      (10 when absent or null) as its only variable; the raw tool's `query`
      and `variables` as given (absent when `arguments` is absent or null);
      for any other name, the "Unknown tool" error. */
  function ToolCall(name: string, args: Option<Json>): (r: Result<GraphQLCall>)
    ensures r.Ok? <==> name in ToolNames()
    ensures r.Err? ==> r.message == "Unknown tool: " + name
    ensures name == ProductsTool ==>
      r == Ok(GraphQLCall(Some(JString(ProductsQuery)), Some(JObject(map["first" := FirstArg(args)]))))
  {
    assert ToolNames() == [ProductsTool, RawTool];
    if name == ProductsTool then
      Ok(GraphQLCall(Some(JString(ProductsQuery)), Some(JObject(map["first" := FirstArg(args)]))))
    else if name == RawTool then
      var a := if args.None? || args.value == JNull then JObject(map[]) else args.value;
      Ok(GraphQLCall(Field(a, "query"), Field(a, "variables")))
    else Err("Unknown tool: " + name)
  }

  /** The raw tool forwards the caller's `query` and `variables` as they are
      (each `undefined` when absent, whatever other keys the arguments have;
      both `undefined` when the arguments are absent or null), and the
      products tool uses a given `first` as it is. */
  lemma ToolsForwardArguments(args: Option<Json>, first: Json)
    requires first != JNull
    ensures args.Some? && args.value.JObject? ==>
      ToolCall(RawTool, args) == Ok(GraphQLCall(Field(args.value, "query"), Field(args.value, "variables")))
    ensures args.None? || args.value == JNull ==> ToolCall(RawTool, args) == Ok(GraphQLCall(None, None))
    ensures FirstArg(Some(JObject(map["first" := first]))) == first
    ensures FirstArg(None) == JInt(10) && FirstArg(Some(JObject(map["first" := JNull]))) == JInt(10)
  {
    assert Field(JObject(map[]), "query").None? && Field(JObject(map[]), "variables").None?;
    assert Field(JObject(map["first" := first]), "first") == Some(first);
    assert Field(JObject(map["first" := JNull]), "first") == Some(JNull);
  }

  /** The server's `shopifyGraphQL(query, variables)`: store, then token,
      from the environment; one POST to the store's GraphQL endpoint; the
      GraphQL response rule with the "GraphQL error: " prefix. */
  function McpGraphQLExchange(env: Env, call: GraphQLCall, replies: seq<Reply>, stringify: Json -> string)
    : (e: Exchange<Result<Option<Json>>>)
    ensures |e.sent| <= 1
    ensures e.sent != [] ==> (GetEnv(env, DomainVar).Ok? && GetEnv(env, TokenVar).Ok? &&
      e.sent[0] == Request(POST, AdminUrl(env[DomainVar], ApiVersion(env), "/graphql.json"), env[TokenVar],
                           Some(GraphQLBody(call.query, call.variables))))
    ensures GetEnv(env, DomainVar).Err? ==> e == Exchange([], Err(GetEnv(env, DomainVar).message))
    ensures GetEnv(env, DomainVar).Ok? && GetEnv(env, TokenVar).Err? ==>
      e == Exchange([], Err(GetEnv(env, TokenVar).message))
    ensures GetEnv(env, DomainVar).Ok? && GetEnv(env, TokenVar).Ok? ==>
      |e.sent| == 1 &&
      e.result == (if replies == [] then Err(FetchFailed) else GraphQLOutcome(replies[0], "GraphQL error: ", stringify))
  {
    match GetEnv(env, DomainVar)
    case Err(m) => Exchange([], Err(m))
    case Ok(domain) =>
      match GetEnv(env, TokenVar)
      case Err(m) => Exchange([], Err(m))
      case Ok(token) =>
        var req := Request(POST, AdminUrl(domain, ApiVersion(env), "/graphql.json"), token,
                           Some(GraphQLBody(call.query, call.variables)));
        match NextReply(replies)
        case Err(m) => Exchange([req], Err(m))
        case Ok(reply) => Exchange([req], GraphQLOutcome(reply, "GraphQL error: ", stringify))
  }

  /** The tool result: one content item of type "json" holding the data
      (left out when the data is `undefined`). */
  function Content(data: Option<Json>): (r: Json)
    ensures r.JObject? && r.fields.Keys == {"content"}
    ensures r.fields["content"].JArray? && |r.fields["content"].items| == 1
    ensures Field(r.fields["content"].items[0], "type") == Some(JString("json"))
    ensures Field(r.fields["content"].items[0], "json") == data
  {
    JObject(map["content" := JArray([JObject(map["type" := JString("json")]
      + (if data.Some? then map["json" := data.value] else map[]))])])
  }

  /** A tools/call request: an unknown name fails before anything is read
      or sent; a known one runs its GraphQL call and wraps the data. */
  function CallExchange(env: Env, name: string, args: Option<Json>, replies: seq<Reply>,
                        stringify: Json -> string): (e: Exchange<Result<Json>>)
    ensures name !in ToolNames() ==> e == Exchange([], Err("Unknown tool: " + name))
    ensures e.result.Ok? ==> name in ToolNames() && |e.sent| == 1
  {
    match ToolCall(name, args)
    case Err(m) => Exchange([], Err(m))
    case Ok(call) =>
      var run := McpGraphQLExchange(env, call, replies, stringify);
      Exchange(run.sent, if run.result.Ok? then Ok(Content(run.result.value)) else Err(run.result.message))
  }

  /** The server's `shopifyGraphQL`. */
  method McpGraphQL(net: Network, env: Env, call: GraphQLCall, stringify: Json -> string)
    returns (r: Result<Option<Json>>)
    modifies net
    ensures Performed(net, McpGraphQLExchange(env, call, old(net.replies), stringify), r)
  {
    var domain := GetEnv(env, DomainVar);
    if domain.Err? {
      r := Err(domain.message);
      return;
    }
    var token := GetEnv(env, TokenVar);
    if token.Err? {
      r := Err(token.message);
      return;
    }
    var reply := net.Fetch(Request(POST, AdminUrl(domain.value, ApiVersion(env), "/graphql.json"), token.value,
                                   Some(GraphQLBody(call.query, call.variables))));
    if reply.Err? {
      r := Err(reply.message);
    } else {
      r := GraphQLOutcome(reply.value, "GraphQL error: ", stringify);
    }
  }

  /** The tools/call handler. */
  method CallTool(net: Network, env: Env, name: string, args: Option<Json>, stringify: Json -> string)
    returns (r: Result<Json>)
    modifies net
    ensures Performed(net, CallExchange(env, name, args, old(net.replies), stringify), r)
  {
    var call := ToolCall(name, args);
    if call.Err? {
      r := Err(call.message);
      return;
    }
    var data := McpGraphQL(net, env, call.value, stringify);
    if data.Err? {
      r := Err(data.message);
    } else {
      r := Ok(Content(data.value));
    }
  }

  /** The request kinds the server answers. */
  datatype Handler = ListToolsHandler | CallToolHandler

  /** The tool server: the handlers registered so far, and whether it is
      connected to its transport. */
  class Server {
    var handlers: seq<Handler>
    var connected: bool

    constructor ()
      ensures handlers == [] && !connected
    {
      handlers := [];
      connected := false;
    }

    /** `server.setRequestHandler(schema, handler)`. */
    method SetRequestHandler(h: Handler)
      modifies this
      ensures handlers == old(handlers) + [h] && connected == old(connected)
    {
      handlers := handlers + [h];
    }

    /** `server.connect(transport)`. */
    method Connect()
      modifies this
      ensures connected && handlers == old(handlers)
    {
      connected := true;
    }

    /** Answers a request of kind `h`, when a handler for it is registered. */
    predicate Answers(h: Handler)
      reads this
    {
      connected && h in handlers
    }
  }

  /** `main()`: both handlers are registered before the server connects, so
      once it runs it answers both kinds of request. */
  method Start() returns (server: Server)
    ensures fresh(server)
    ensures server.handlers == [ListToolsHandler, CallToolHandler] && server.connected
    ensures server.Answers(ListToolsHandler) && server.Answers(CallToolHandler)
  {
    server := new Server();
    server.SetRequestHandler(ListToolsHandler);
    server.SetRequestHandler(CallToolHandler);
    server.Connect();
  }
}
