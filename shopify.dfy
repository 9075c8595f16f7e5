/** The admin API client (src/lib/shopify.ts): how each operation builds its
    request, which requests it issues, and how it turns the reply into a
    result or an error. Each operation is specified by a function giving its
    `Exchange` for the pending replies, and implemented by a method on the
    `Network` that is proved to perform exactly that exchange. */
module Shopify {
  import opened Results
  import opened Text
  import opened JsonValues
  import opened Http

  /** The process environment. */
  type Env = map<string, string>

  const DomainVar: string := "SHOPIFY_STORE_DOMAIN"
  const TokenVar: string := "SHOPIFY_ADMIN_API_ACCESS_TOKEN"
  const VersionVar: string := "SHOPIFY_API_VERSION"
  const DefaultApiVersion: string := "2024-10"

  /** The page size the listing operations use when none is given. */
  const DefaultLimit: int := 24

  /** `process.env.SHOPIFY_API_VERSION || "2024-10"`. */
  function ApiVersion(env: Env): (v: string)
    ensures v != ""
    ensures VersionVar in env && env[VersionVar] != "" ==> v == env[VersionVar]
    ensures VersionVar !in env || env[VersionVar] == "" ==> v == DefaultApiVersion
  {
    if VersionVar in env && env[VersionVar] != "" then env[VersionVar] else DefaultApiVersion
  }

  /** `getEnv(name)`: the variable's value; an unset or empty variable is an
      error whose message names it. */
  function GetEnv(env: Env, name: string): (r: Result<string>)
    ensures r.Ok? <==> name in env && env[name] != ""
    ensures r.Ok? ==> r.value == env[name]
    ensures r.Err? ==> Contains(r.message, name)
  {
    if name in env && env[name] != "" then Ok(env[name])
    else
      ContainsConcat("Missing required env var: ", name, name);
      Err("Missing required env var: " + name)
  }

  /** The store and the token a request is made with. */
  datatype Session = Session(shop: string, accessToken: string)

  /** The standalone session: the store domain, then the token, from the environment. */
  function StoreSession(env: Env): (r: Result<Session>)
    ensures r.Ok? <==> GetEnv(env, DomainVar).Ok? && GetEnv(env, TokenVar).Ok?
    ensures r.Ok? ==> r.value == Session(env[DomainVar], env[TokenVar])
    ensures GetEnv(env, DomainVar).Err? ==> r == Err(GetEnv(env, DomainVar).message)
    ensures GetEnv(env, DomainVar).Ok? && GetEnv(env, TokenVar).Err? ==> r == Err(GetEnv(env, TokenVar).message)
  {
    var shop :- GetEnv(env, DomainVar);
    var token :- GetEnv(env, TokenVar);
    Ok(Session(shop, token))
  }

  /** The URL of an admin API path on a store. */
  function AdminUrl(shop: string, version: string, path: string): string {
    "https://" + shop + "/admin/api/" + version + path
  }

  /** The base of every admin URL of a store and version. */
  function AdminBase(shop: string, version: string): string {
    "https://" + shop + "/admin/api/" + version
  }

  /** An admin URL is its store's base followed by the path, so the path can
      be read back from the URL and different paths give different URLs. */
  lemma AdminUrlSplits(shop: string, version: string, path: string)
    ensures StartsWith(AdminUrl(shop, version, path), AdminBase(shop, version))
    ensures AdminUrl(shop, version, path)[|AdminBase(shop, version)|..] == path
  {
    assert AdminUrl(shop, version, path) == AdminBase(shop, version) + path;
  }

  /** The request an admin call sends for `path` in `session`. */
  function ApiRequest(session: Session, version: string, verb: Method, path: string, body: Option<Json>): Request {
    Request(verb, AdminUrl(session.shop, version, path), session.accessToken, body)
  }

  /** A request made to the configured store's admin API with its token. */
  predicate SentToStore(env: Env, req: Request) {
    StoreSession(env).Ok? &&
    StartsWith(req.url, AdminBase(env[DomainVar], ApiVersion(env))) && req.token == env[TokenVar]
  }

  /** Every admin call goes to the configured store, with its token. */
  lemma RequestSentToStore(env: Env, verb: Method, path: string, body: Option<Json>, replies: seq<Reply>)
    ensures var e := RequestExchange(env, verb, path, body, replies);
      forall k :: 0 <= k < |e.sent| ==> SentToStore(env, e.sent[k])
  {
    if StoreSession(env).Ok? {
      AdminUrlSplits(env[DomainVar], ApiVersion(env), path);
    }
  }

  /** The REST response rule: a status outside 200-299 is an error carrying
      the status and the body text; otherwise the result is the decoded body. */
  function RestOutcome(reply: Reply): (r: Result<Json>)
    ensures r.Ok? <==> IsOk(reply) && reply.json.Ok?
    ensures r.Ok? ==> r.value == reply.json.value
    ensures !IsOk(reply) ==> r.Err? && Contains(r.message, Decimal(reply.status)) && Contains(r.message, reply.text)
  {
    if !IsOk(reply) then
      var m := "Shopify API error " + Decimal(reply.status) + ": " + reply.text;
      ContainsConcat("Shopify API error " + Decimal(reply.status) + ": ", reply.text, reply.text);
      ContainsConcat("Shopify API error ", Decimal(reply.status), Decimal(reply.status));
      ContainsConcat("Shopify API error " + Decimal(reply.status), ": ", Decimal(reply.status));
      ContainsConcat("Shopify API error " + Decimal(reply.status) + ": ", reply.text, Decimal(reply.status));
      Err(m)
    else reply.json
  }

  /** One admin REST call with a known session: one request, and its reply
      read by the REST rule. */
  function SendExchange(session: Session, version: string, verb: Method, path: string,
                        body: Option<Json>, replies: seq<Reply>): Exchange<Result<Json>>
  {
    var req := ApiRequest(session, version, verb, path, body);
    match NextReply(replies)
    case Err(m) => Exchange([req], Err(m))
    case Ok(reply) => Exchange([req], RestOutcome(reply))
  }

  /** `shopifyRequest(path, init)`: the session is read from the environment
      first; a missing variable fails before anything is sent. */
  function RequestExchange(env: Env, verb: Method, path: string, body: Option<Json>,
                           replies: seq<Reply>): (e: Exchange<Result<Json>>)
    ensures StoreSession(env).Err? ==> e == Exchange([], Err(StoreSession(env).message))
    ensures StoreSession(env).Ok? ==>
      e.sent == [ApiRequest(StoreSession(env).value, ApiVersion(env), verb, path, body)]
    ensures StoreSession(env).Ok? ==>
      e.result == (if replies == [] then Err(FetchFailed) else RestOutcome(replies[0]))
  {
    match StoreSession(env)
    case Err(m) => Exchange([], Err(m))
    case Ok(session) => SendExchange(session, ApiVersion(env), verb, path, body, replies)
  }

  /** The shared request step of `shopifyRequest` and `shopifyRequestWithSession`. */
  method Send(net: Network, session: Session, version: string, verb: Method, path: string,
              body: Option<Json>) returns (r: Result<Json>)
    modifies net
    ensures Performed(net, SendExchange(session, version, verb, path, body, old(net.replies)), r)
  {
    var reply := net.Fetch(ApiRequest(session, version, verb, path, body));
    if reply.Err? {
      r := Err(reply.message);
    } else {
      r := RestOutcome(reply.value);
    }
  }

  /** `shopifyRequest(path, init)`. */
  method ShopifyRequest(net: Network, env: Env, verb: Method, path: string, body: Option<Json>)
    returns (r: Result<Json>)
    modifies net
    ensures Performed(net, RequestExchange(env, verb, path, body, old(net.replies)), r)
  {
    var session := StoreSession(env);
    if session.Err? {
      r := Err(session.message);
      return;
    }
    r := Send(net, session.value, ApiVersion(env), verb, path, body);
  }

  /** `shopifyRequestWithSession(session, path, init)`: the same request and
      response rule with the caller's store and token. */
  method ShopifyRequestWithSession(net: Network, env: Env, session: Session, verb: Method,
                                   path: string, body: Option<Json>) returns (r: Result<Json>)
    modifies net
    ensures Performed(net, SendExchange(session, ApiVersion(env), verb, path, body, old(net.replies)), r)
  {
    r := Send(net, session, ApiVersion(env), verb, path, body);
  }

  // ---------------------------------------------------------------------
  // The operations.

  function ListProductsPath(limit: Option<int>): string {
    "/products.json?limit=" + Decimal(limit.GetOr(DefaultLimit))
  }

  function ListCustomersPath(limit: Option<int>): string {
    "/customers.json?limit=" + Decimal(limit.GetOr(DefaultLimit))
  }

  /** The limit in a listing path is the given one, or 24. */
  lemma ListPathsCarryLimit(limit: Option<int>)
    ensures StartsWith(ListProductsPath(limit), "/products.json?limit=")
    ensures ListProductsPath(limit)[|"/products.json?limit="|..] == Decimal(limit.GetOr(24))
    ensures StartsWith(ListCustomersPath(limit), "/customers.json?limit=")
    ensures ListCustomersPath(limit)[|"/customers.json?limit="|..] == Decimal(limit.GetOr(24))
  {
  }

  function ListProductsExchange(env: Env, limit: Option<int>, replies: seq<Reply>): Exchange<Result<Json>> {
    RequestExchange(env, GET, ListProductsPath(limit), None, replies)
  }

  /** `listProducts(limit = 24)`. */
  method ListProducts(net: Network, env: Env, limit: Option<int>) returns (r: Result<Json>)
    modifies net
    ensures Performed(net, ListProductsExchange(env, limit, old(net.replies)), r)
  {
    r := ShopifyRequest(net, env, GET, ListProductsPath(limit), None);
  }

  function ListCustomersExchange(env: Env, limit: Option<int>, replies: seq<Reply>): Exchange<Result<Json>> {
    RequestExchange(env, GET, ListCustomersPath(limit), None, replies)
  }

  /** `listCustomers(limit = 24)`. */
  method ListCustomers(net: Network, env: Env, limit: Option<int>) returns (r: Result<Json>)
    modifies net
    ensures Performed(net, ListCustomersExchange(env, limit, old(net.replies)), r)
  {
    r := ShopifyRequest(net, env, GET, ListCustomersPath(limit), None);
  }

  /** The product fields `updateProduct` sends: always the id; the title only
      when one is given; the price only when one is given, and then as the
      price of the first variant. */
  function UpdatePayload(id: int, title: Option<string>, price: Option<string>): (payload: Json)
    ensures payload.JObject? && payload.fields.Keys == {"product"}
    ensures var product := payload.fields["product"];
      product.JObject? &&
      product.fields.Keys == {"id"} + (if title.Some? then {"title"} else {})
                                    + (if price.Some? then {"variants"} else {}) &&
      product.fields["id"] == JInt(id) &&
      (title.Some? ==> product.fields["title"] == JString(title.value)) &&
      (price.Some? ==> product.fields["variants"] == JArray([JObject(map["price" := JString(price.value)])]))
  {
    var product := map["id" := JInt(id)]
      + (if title.Some? then map["title" := JString(title.value)] else map[])
      + (if price.Some? then map["variants" := JArray([JObject(map["price" := JString(price.value)])])] else map[]);
    JObject(map["product" := JObject(product)])
  }

  /** The payload object of `updateProduct`, built field by field. */
  method BuildUpdatePayload(id: int, title: Option<string>, price: Option<string>) returns (payload: Json)
    ensures payload == UpdatePayload(id, title, price)
  {
    var product := map["id" := JInt(id)];
    if title.Some? {
      product := product["title" := JString(title.value)];
    }
    assert product == map["id" := JInt(id)] + (if title.Some? then map["title" := JString(title.value)] else map[]);
    if price.Some? {
      product := product["variants" := JArray([JObject(map["price" := JString(price.value)])])];
    }
    assert product == map["id" := JInt(id)]
      + (if title.Some? then map["title" := JString(title.value)] else map[])
      + (if price.Some? then map["variants" := JArray([JObject(map["price" := JString(price.value)])])] else map[]);
    payload := JObject(map["product" := JObject(product)]);
  }

  function ProductPath(id: int): string {
    "/products/" + Decimal(id) + ".json"
  }

  function UpdateProductExchange(env: Env, id: int, title: Option<string>, price: Option<string>,
                                 replies: seq<Reply>): Exchange<Result<Json>> {
    RequestExchange(env, PUT, ProductPath(id), Some(UpdatePayload(id, title, price)), replies)
  }

  /** `updateProduct({id, title?, price?})`. */
  method UpdateProduct(net: Network, env: Env, id: int, title: Option<string>, price: Option<string>)
    returns (r: Result<Json>)
    modifies net
    ensures Performed(net, UpdateProductExchange(env, id, title, price, old(net.replies)), r)
  {
    var payload := BuildUpdatePayload(id, title, price);
    r := ShopifyRequest(net, env, PUT, ProductPath(id), Some(payload));
  }

  /** An update issues one PUT, to the product's own path, whose body is the
      update payload; different product ids go to different paths. */
  lemma UpdateIssuesOnePut(env: Env, id: int, title: Option<string>, price: Option<string>, replies: seq<Reply>)
    requires StoreSession(env).Ok?
    ensures var e := UpdateProductExchange(env, id, title, price, replies);
      |e.sent| == 1 && e.sent[0].verb == PUT &&
      e.sent[0].url == AdminUrl(env[DomainVar], ApiVersion(env), ProductPath(id)) &&
      e.sent[0].body == Some(UpdatePayload(id, title, price))
    ensures forall other: int :: ProductPath(other) == ProductPath(id) ==> other == id
  {
    forall other: int | ProductPath(other) == ProductPath(id) ensures other == id {
      var a, b := Decimal(other), Decimal(id);
      assert ProductPath(other) == "/products/" + a + ".json";
      assert a == ProductPath(other)[10..|ProductPath(other)| - 5];
      assert b == ProductPath(id)[10..|ProductPath(id)| - 5];
      DecimalInjective(other, id);
    }
  }

  /** The collection object `createCustomCollection` sends. */
  function CollectionBody(title: string, bodyHtml: Option<string>): Json {
    JObject(map["custom_collection" := JObject(map["title" := JString(title)]
      + (if bodyHtml.Some? then map["body_html" := JString(bodyHtml.value)] else map[]))])
  }

  function CreateCustomCollectionExchange(env: Env, title: string, bodyHtml: Option<string>,
                                          replies: seq<Reply>): Exchange<Result<Json>> {
    RequestExchange(env, POST, "/custom_collections.json", Some(CollectionBody(title, bodyHtml)), replies)
  }

  /** `createCustomCollection({title, body_html?})`. */
  method CreateCustomCollection(net: Network, env: Env, title: string, bodyHtml: Option<string>)
    returns (r: Result<Json>)
    modifies net
    ensures Performed(net, CreateCustomCollectionExchange(env, title, bodyHtml, old(net.replies)), r)
  {
    r := ShopifyRequest(net, env, POST, "/custom_collections.json", Some(CollectionBody(title, bodyHtml)));
  }

  /** The membership record `addProductToCustomCollection` sends. */
  function CollectBody(collectionId: int, productId: int): Json {
    JObject(map["collect" := JObject(map["collection_id" := JInt(collectionId), "product_id" := JInt(productId)])])
  }

  function AddProductExchange(env: Env, collectionId: int, productId: int,
                              replies: seq<Reply>): Exchange<Result<Json>> {
    RequestExchange(env, POST, "/collects.json", Some(CollectBody(collectionId, productId)), replies)
  }

  /** `addProductToCustomCollection({collection_id, product_id})`. */
  method AddProductToCustomCollection(net: Network, env: Env, collectionId: int, productId: int)
    returns (r: Result<Json>)
    modifies net
    ensures Performed(net, AddProductExchange(env, collectionId, productId, old(net.replies)), r)
  {
    r := ShopifyRequest(net, env, POST, "/collects.json", Some(CollectBody(collectionId, productId)));
  }

  /** The lookup of a product's membership records in a collection. */
  function LookupPath(collectionId: int, productId: int): string {
    "/collects.json?product_id=" + Decimal(productId) + "&collection_id=" + Decimal(collectionId)
  }

  /** The deletion of one membership record. */
  function DeletePath(collectId: Json): string {
    "/collects/" + Show(collectId) + ".json"
  }

  const NotFound: string := "Collect relation not found"

  /** `collects.collects?.[0]?.id` on the decoded lookup body: reading
      `collects` from `null` throws; otherwise the id of the first element,
      or `undefined` when any step is missing or `null`. */
  function FirstCollectId(body: Json): (r: Result<Option<Json>>)
    ensures r.Err? <==> body == JNull
    ensures r.Err? ==> r.message == NullRead("collects")
    ensures r.Ok? && r.value.Some? ==>
      Field(body, "collects").Some? && Element0(Field(body, "collects").value).Some? &&
      r.value == Field(Element0(Field(body, "collects").value).value, "id")
  {
    if body == JNull then Err(NullRead("collects"))
    else
      var list := Field(body, "collects");
      if list.None? || list.value == JNull then Ok(None)
      else
        var first := Element0(list.value);
        if first.None? || first.value == JNull then Ok(None)
        else Ok(Field(first.value, "id"))
  }

  /** The id to delete: the first record's id when it is truthy, and the
      "Collect relation not found" error when it is missing or falsy. */
  function CollectToDelete(body: Json): (r: Result<Json>)
    ensures r.Ok? ==> Truthy(r.value)
    ensures r.Ok? <==> FirstCollectId(body).Ok? && Present(FirstCollectId(body).value)
    ensures body == JNull ==> r == Err(NullRead("collects"))
    ensures body != JNull && r.Err? ==> r.message == NotFound
  {
    var id :- FirstCollectId(body);
    if Present(id) then Ok(id.value) else Err(NotFound)
  }

  /** With the usual reply shape, the id deleted is the first record's, and
      an empty list, or a first record without a truthy id, is not found. */
  lemma DeletesFirstCollect(items: seq<Json>, others: map<string, Json>)
    ensures var body := JObject(others["collects" := JArray(items)]);
      CollectToDelete(body) ==
        if items != [] && items[0].JObject? && "id" in items[0].fields && Truthy(items[0].fields["id"])
        then Ok(items[0].fields["id"]) else Err(NotFound)
  {
    var body := JObject(others["collects" := JArray(items)]);
    assert Field(body, "collects") == Some(JArray(items));
  }

  /** The removal's exchange: the lookup, then the deletion of the record it
      finds; a failed lookup or a missing record ends it. */
  function RemoveProductExchange(env: Env, collectionId: int, productId: int,
                                 replies: seq<Reply>): (e: Exchange<Result<Json>>)
    ensures |e.sent| <= 2
    ensures e.result.Ok? ==> |e.sent| == 2
    ensures |e.sent| == 2 ==> e.result == (if |replies| < 2 then Err(FetchFailed) else RestOutcome(replies[1]))
    ensures StoreSession(env).Err? ==> e == Exchange([], Err(StoreSession(env).message))
  {
    var lookup := RequestExchange(env, GET, LookupPath(collectionId, productId), None, replies);
    if lookup.result.Err? then lookup
    else match CollectToDelete(lookup.result.value)
      case Err(m) => Exchange(lookup.sent, Err(m))
      case Ok(id) =>
        var delete := RequestExchange(env, DELETE, DeletePath(id), None, Drop(replies, 1));
        Exchange(lookup.sent + delete.sent, delete.result)
  }

  /** `removeProductFromCustomCollection({collection_id, product_id})`: look
      the membership record up, then delete the first one found. */
  method RemoveProductFromCustomCollection(net: Network, env: Env, collectionId: int, productId: int)
    returns (r: Result<Json>)
    modifies net
    ensures Performed(net, RemoveProductExchange(env, collectionId, productId, old(net.replies)), r)
  {
    var collects := ShopifyRequest(net, env, GET, LookupPath(collectionId, productId), None);
    if collects.Err? {
      r := collects;
      return;
    }
    var collectId := CollectToDelete(collects.value);
    if collectId.Err? {
      r := Err(collectId.message);
      return;
    }
    r := ShopifyRequest(net, env, DELETE, DeletePath(collectId.value), None);
  }

  /** The removal always looks up first; it deletes at most once, only after
      a successful lookup, and only the record `CollectToDelete` picks from
      the lookup's reply. When none is found, nothing is deleted and the
      result is the not-found error. */
  lemma {:induction false} RemoveDeletesOnlyFoundCollect(env: Env, collectionId: int, productId: int,
                                                          replies: seq<Reply>)
    requires StoreSession(env).Ok?
    ensures var e := RemoveProductExchange(env, collectionId, productId, replies);
      var session := StoreSession(env).value;
      1 <= |e.sent| <= 2 &&
      e.sent[0] == ApiRequest(session, ApiVersion(env), GET, LookupPath(collectionId, productId), None) &&
      (|e.sent| == 2 <==>
        replies != [] && RestOutcome(replies[0]).Ok? && CollectToDelete(RestOutcome(replies[0]).value).Ok?) &&
      (|e.sent| == 2 ==>
        e.sent[1] == ApiRequest(session, ApiVersion(env), DELETE,
                                DeletePath(CollectToDelete(RestOutcome(replies[0]).value).value), None))
    ensures var e := RemoveProductExchange(env, collectionId, productId, replies);
      replies != [] && RestOutcome(replies[0]).Ok? && CollectToDelete(RestOutcome(replies[0]).value).Err? ==>
        e.result == CollectToDelete(RestOutcome(replies[0]).value) && |e.sent| == 1
  {
  }

  /** A removal's lookup and delete both go to the configured store. */
  lemma RemoveSentToStore(env: Env, collectionId: int, productId: int, replies: seq<Reply>)
    ensures var e := RemoveProductExchange(env, collectionId, productId, replies);
      |e.sent| <= 2 && forall k :: 0 <= k < |e.sent| ==> SentToStore(env, e.sent[k])
  {
    RequestSentToStore(env, GET, LookupPath(collectionId, productId), None, replies);
    var lookup := RequestExchange(env, GET, LookupPath(collectionId, productId), None, replies);
    if lookup.result.Ok? && CollectToDelete(lookup.result.value).Ok? {
      var id := CollectToDelete(lookup.result.value).value;
      RequestSentToStore(env, DELETE, DeletePath(id), None, Drop(replies, 1));
    }
  }

  /** One GraphQL call with a known session: one POST of the query and
      variables to the store's GraphQL endpoint, read by the GraphQL rule. */
  function SessionGraphQLExchange(session: Session, version: string, query: string, variables: Option<Json>,
                                  replies: seq<Reply>, stringify: Json -> string): (e: Exchange<Result<Option<Json>>>)
    ensures e.sent == [ApiRequest(session, version, POST, "/graphql.json",
                                  Some(GraphQLBody(Some(JString(query)), variables)))]
    ensures e.result == (if replies == [] then Err(FetchFailed)
                         else GraphQLOutcome(replies[0], "Shopify GraphQL error: ", stringify))
  {
    var req := ApiRequest(session, version, POST, "/graphql.json", Some(GraphQLBody(Some(JString(query)), variables)));
    match NextReply(replies)
    case Err(m) => Exchange([req], Err(m))
    case Ok(reply) => Exchange([req], GraphQLOutcome(reply, "Shopify GraphQL error: ", stringify))
  }

  /** `shopifyGraphQL(query, variables)`: the session is read from the
      environment first. */
  function GraphQLExchange(env: Env, query: string, variables: Option<Json>, replies: seq<Reply>,
                           stringify: Json -> string): (e: Exchange<Result<Option<Json>>>)
    ensures StoreSession(env).Err? ==> e == Exchange([], Err(StoreSession(env).message))
    ensures StoreSession(env).Ok? ==>
      e.sent == [ApiRequest(StoreSession(env).value, ApiVersion(env), POST, "/graphql.json",
                            Some(GraphQLBody(Some(JString(query)), variables)))]
    ensures StoreSession(env).Ok? ==>
      e.result == (if replies == [] then Err(FetchFailed)
                   else GraphQLOutcome(replies[0], "Shopify GraphQL error: ", stringify))
  {
    match StoreSession(env)
    case Err(m) => Exchange([], Err(m))
    case Ok(session) => SessionGraphQLExchange(session, ApiVersion(env), query, variables, replies, stringify)
  }

  /** The shared step of `shopifyGraphQL` and `shopifyGraphQLWithSession`. */
  method SendGraphQL(net: Network, session: Session, version: string, query: string, variables: Option<Json>,
                     stringify: Json -> string) returns (r: Result<Option<Json>>)
    modifies net
    ensures Performed(net, SessionGraphQLExchange(session, version, query, variables, old(net.replies), stringify), r)
  {
    var body := GraphQLBody(Some(JString(query)), variables);
    var reply := net.Fetch(ApiRequest(session, version, POST, "/graphql.json", Some(body)));
    if reply.Err? {
      r := Err(reply.message);
    } else {
      r := GraphQLOutcome(reply.value, "Shopify GraphQL error: ", stringify);
    }
  }

  /** A GraphQL call makes at most one request, to the configured store. */
  lemma GraphQLSentToStore(env: Env, query: string, variables: Option<Json>, replies: seq<Reply>,
                           stringify: Json -> string)
    ensures var e := GraphQLExchange(env, query, variables, replies, stringify);
      |e.sent| <= 1 && (StoreSession(env).Err? ==> e.sent == [] && e.result.Err?) &&
      forall k :: 0 <= k < |e.sent| ==> SentToStore(env, e.sent[k])
  {
    if StoreSession(env).Ok? {
      AdminUrlSplits(env[DomainVar], ApiVersion(env), "/graphql.json");
    }
  }

  /** `shopifyGraphQL(query, variables)`. The stringification used in the
      error message is a parameter. */
  method ShopifyGraphQL(net: Network, env: Env, query: string, variables: Option<Json>,
                        stringify: Json -> string) returns (r: Result<Option<Json>>)
    modifies net
    ensures Performed(net, GraphQLExchange(env, query, variables, old(net.replies), stringify), r)
  {
    var session := StoreSession(env);
    if session.Err? {
      r := Err(session.message);
      return;
    }
    r := SendGraphQL(net, session.value, ApiVersion(env), query, variables, stringify);
  }

  /** `shopifyGraphQLWithSession(session, query, variables)`: the same call
      and rule with the caller's store and token. */
  method ShopifyGraphQLWithSession(net: Network, env: Env, session: Session, query: string,
                                   variables: Option<Json>, stringify: Json -> string)
    returns (r: Result<Option<Json>>)
    modifies net
    ensures Performed(net, SessionGraphQLExchange(session, ApiVersion(env), query, variables, old(net.replies),
                                                  stringify), r)
  {
    r := SendGraphQL(net, session, ApiVersion(env), query, variables, stringify);
  }
}
