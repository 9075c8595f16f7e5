# Shopify admin agent — a Dafny model

This project models the decision logic of an admin assistant for a Shopify
store. A chat prompt is sent to a language model. The model's reply text is
turned into either a raw Admin GraphQL call or one of six structured
*intents*:

- list products;
- update a product;
- create a custom collection;
- add a product to a collection;
- remove a product from a collection;
- list customers.

The action is executed against the store's Admin REST or GraphQL API, and
the outcome is wrapped in a JSON envelope for the chat UI. The project also
models:

- the request middleware;
- the OAuth install redirect;
- the small stand-alone tool server with two GraphQL tools.

Modules, one per source file or shared concern:

| file | module | models |
|---|---|---|
| `results.dfy` | `Results` | `Option` for "undefined", and `Result` for a call that may throw (an error is its message) |
| `text.dfy` | `Text` | string operations: prefix, `includes`, character search, `split` on one character, and decimal rendering of integers with its round trip |
| `json.dfy` | `JsonValues` | parsed JSON values and the JavaScript rules applied to them: truthiness, property and `[0]` reads, `??`, `\|\|`, and `String(v)` |
| `intents.dfy` | `Intents` | `src/lib/intents.ts`: the intent union, its validator, its JSON form, and the guide text as data |
| `http.dfy` | `Http` | `fetch` as a `Network` object: a log of requests and scripted replies. Also the GraphQL response rule shared by both GraphQL helpers |
| `shopify.dfy` | `Shopify` | `src/lib/shopify.ts`: environment, URL formula, REST rule, the seven operations |
| `agent.dfy` | `Agent` | `src/app/api/agent/route.ts`: reply extraction, interpretation, inference with the tool client's lifecycle, dispatch, and the POST envelope |
| `middleware.dfy` | `Middleware` | `src/middleware.ts` |
| `auth.dfy` | `Auth` | `src/app/api/auth/route.ts`, with `encodeURIComponent` written out |
| `mcp_server.dfy` | `McpServer` | `mcp/shopify-server.mjs` |

How each backend operation is modelled:

- A spec function gives its *exchange* for the pending replies: the requests
  it issues, in order, and its result.
- A module-level method performs it. The method takes the `Network` object
  `net`, may change only `net` (`modifies net`), and is proved to perform
  exactly that exchange (`Http.Performed`).
- The properties are lemmas about the exchange functions.
- Helper functions without a row of their own serve as the specifications
  of members that have rows. These are `Agent.SuccessMessage`,
  `Agent.ActionTag`, `Agent.IntentCandidate` and `Agent.AsData`, and the
  per-operation exchange functions such as `Shopify.ListProductsExchange`.
  Their behaviour is stated by the rows of those members, for example
  `Agent.SuccessDependsOnKindOnly`, `Agent.Interpret`,
  `Agent.DispatchExchange` and `Shopify.ListProducts`.

Code the model cannot see is passed in as function-typed parameters:

- `generate`: the model call, from prompt to reply text or error;
- `parse`: `JSON.parse`;
- `stringify`: `JSON.stringify`, used only in error messages.

Behaviour of the code worth knowing:

- The API version defaults to "2024-10"; it is not required.
- GraphQL `variables` default to `{}` when falsy, not only when missing.
- The `intent` sub-field is used only when it is truthy.
- The error text is appended to the apology in full.
- An unknown intent name fails in validation, so the switch's `default`
  branch cannot be reached. The failure envelope is the generic one.
- The tool client is closed only if it connected.

## Model

| member | source | states |
|---|---|---|
| `Intents.Name` | src/lib/intents.ts:33-40 | every intent's discriminant is one of the six names |
| `Intents.ValidateIntent` | src/lib/intents.ts:33-40 | an accepted value is an object whose `name` is the intent's name, and the intent respects the 1..250 limit bound |
| `Intents.EncodeRoundTrip` | src/lib/intents.ts:3-40 | every well-formed intent, written as JSON, validates back to itself |
| `Intents.ValidatedIsRestriction` | src/lib/intents.ts:3-31 | validation keeps exactly the declared params of the selected shape, values unchanged, and drops the other keys |
| `Intents.UnknownNameRejected` | src/lib/intents.ts:33-40 | a name outside the six is rejected, whatever the params |
| `Intents.ValidationIffConforms` | src/lib/intents.ts:3-40 | params validate iff the name is one of the six and the params fit that name's schema (required ints and strings present, optional strings are strings); so params valid for one shape are rejected under another name |
| `Intents.LimitAcceptedIffInRange` | src/lib/intents.ts:5 | a listing limit is accepted iff it is an integer in 1..250 (0, 251 and fractions rejected) |
| `Intents.MissingParamsDefault` | src/lib/intents.ts:28-31 | a listing intent without `params` validates, with no limit |
| `Intents.GuideMatchesUnion` | src/lib/intents.ts:44-65 | the guide lists the six discriminants of the union in order, each with exactly its declared keys |
| `Intents.ValidatedConformsToGuide` | src/lib/intents.ts:44-65 | whatever validates with its params given is written as one of the guide's shapes says |
| `JsonValues.OrIfFalsy` | src/app/api/agent/route.ts:112 | `v \|\| fallback` is `v` when `v` is truthy and the fallback otherwise |
| `JsonValues.ShowRules` | src/lib/shopify.ts:108 | documents `String(v)` case by case (a string is itself, an integer its decimal digits, null, booleans and objects their fixed texts); the derived part is that an array gives its elements' strings joined by commas, with null elements empty |
| `Http.Network.Fetch` | src/lib/shopify.ts:29-37 | a request is appended to the log and answered by the next pending reply; with none pending it fails |
| `Http.GraphQLOutcome` | src/lib/shopify.ts:131-135 | the result is `data` iff the status is 2xx, the body decodes, is not null, and has no truthy `errors` |
| `Http.EmptyErrorsRejected` | src/lib/shopify.ts:132-133 | an empty `errors` array is an error, whatever the status and `data` |
| `Text.DigitsRoundTrip` | src/lib/shopify.ts:73 | the decimal digits written into a path read back as the number |
| `Text.DecimalInjective` | src/lib/shopify.ts:81 | different ids give different decimal texts, so paths identify their resource |
| `Text.SplitOnAppend` | src/app/api/auth/route.ts:15 | splitting after a separator-free first piece yields that piece first |
| `Shopify.GetEnv` | src/lib/shopify.ts:12-18 | succeeds iff the variable is set and non-empty; the error message names the variable |
| `Shopify.ApiVersion` | src/lib/shopify.ts:10 | the version is the variable when it is set and non-empty, and "2024-10" otherwise; it is never empty |
| `Shopify.StoreSession` | src/lib/shopify.ts:25-26 | the store domain, then the token, are read, and both must be present; when both are missing, the domain's error is the one returned |
| `Shopify.AdminUrlSplits` | src/lib/shopify.ts:28 | an admin URL is `https://{domain}/admin/api/{version}` followed by the path, and the path can be read back from it |
| `Shopify.RequestSentToStore` | src/lib/shopify.ts:25-37 | every admin REST request goes to the configured store's admin API with its token |
| `Shopify.RestOutcome` | src/lib/shopify.ts:39-44 | ok iff the status is 2xx and the body decodes, and then the body is returned unchanged; a non-2xx status is an error containing the status and the body text |
| `Shopify.RequestExchange` | src/lib/shopify.ts:21-45 | a missing variable fails with its error and nothing sent; otherwise exactly one request to the admin URL of the path, and the result is the REST rule applied to the first pending reply, or "fetch failed" when none is pending |
| `Shopify.Send` | src/lib/shopify.ts:28-44 | performs one REST exchange: one request logged, one reply consumed, the REST rule applied |
| `Shopify.ShopifyRequest` | src/lib/shopify.ts:21-45 | performs the environment-session request exchange |
| `Shopify.ShopifyRequestWithSession` | src/lib/shopify.ts:48-70 | performs the same exchange with the caller's store and token |
| `Shopify.ListPathsCarryLimit` | src/lib/shopify.ts:72-74 | the listing paths carry the given limit, or 24, as their `limit` query value |
| `Shopify.ListProducts` | src/lib/shopify.ts:72-74 | performs one GET of the products path |
| `Shopify.ListCustomers` | src/lib/shopify.ts:111-113 | performs one GET of the customers path |
| `Shopify.UpdatePayload` | src/lib/shopify.ts:76-80 | the payload holds `product.id`; `title` iff a title is given; `variants == [{price}]` iff a price is given; no other keys |
| `Shopify.BuildUpdatePayload` | src/lib/shopify.ts:77-80 | building the payload field by field yields the payload above |
| `Shopify.UpdateProduct` | src/lib/shopify.ts:76-85 | performs one PUT of the payload to the product's path |
| `Shopify.UpdateIssuesOnePut` | src/lib/shopify.ts:81-84 | an update sends exactly one PUT, to `/products/{id}.json` on the store, with the payload; different ids give different paths |
| `Shopify.CreateCustomCollection` | src/lib/shopify.ts:87-92 | performs one POST of `{custom_collection: {title, body_html?}}` |
| `Shopify.AddProductToCustomCollection` | src/lib/shopify.ts:94-99 | performs one POST of `{collect: {collection_id, product_id}}` |
| `Shopify.CollectToDelete` | src/lib/shopify.ts:106-107 | an id is chosen iff the first record's id is present and truthy, and it is truthy; a null lookup body throws on reading `collects`; any other failure is "Collect relation not found" |
| `Shopify.DeletesFirstCollect` | src/lib/shopify.ts:106-107 | the id deleted is the first record's; an empty list or a falsy id gives "Collect relation not found" |
| `Shopify.FirstCollectId` | src/lib/shopify.ts:106 | the read throws exactly when the lookup body is null; a defined id is the `id` of element 0 of the body's `collects` |
| `Shopify.RemoveProductExchange` | src/lib/shopify.ts:101-109 | at most two requests, and a success only after both the lookup and the deletion; when both are sent, the result is the REST rule applied to the second pending reply, or "fetch failed"; a missing variable fails with nothing sent |
| `Shopify.RemoveProductFromCustomCollection` | src/lib/shopify.ts:101-109 | performs the lookup, then at most one DELETE |
| `Shopify.RemoveDeletesOnlyFoundCollect` | src/lib/shopify.ts:101-109 | the lookup comes first; a DELETE is sent iff the lookup succeeds and `CollectToDelete` finds a truthy id, and it targets that id; otherwise nothing is deleted, and the lookup's error or `CollectToDelete`'s error is returned |
| `Shopify.RemoveSentToStore` | src/lib/shopify.ts:101-109 | a removal sends at most two requests, all to the configured store |
| `Shopify.SessionGraphQLExchange` | src/lib/shopify.ts:119-135 | exactly one POST of `{query, variables}` to the store's `/graphql.json` with the token; the result is the GraphQL rule with the "Shopify GraphQL error: " prefix applied to the first pending reply, or "fetch failed" when none is pending |
| `Shopify.GraphQLExchange` | src/lib/shopify.ts:116-136 | a missing variable fails with its error and nothing sent; otherwise the same single POST to the configured store, and the same result |
| `Shopify.SendGraphQL` | src/lib/shopify.ts:119-135 | performs one POST of `{query, variables}` to `/graphql.json`, read by the GraphQL rule |
| `Shopify.GraphQLSentToStore` | src/lib/shopify.ts:116-136 | a GraphQL call sends at most one request, to the configured store; a missing variable sends nothing |
| `Shopify.ShopifyGraphQL` | src/lib/shopify.ts:116-136 | performs the environment-session GraphQL exchange |
| `Shopify.ShopifyGraphQLWithSession` | src/lib/shopify.ts:138-160 | performs the same exchange with the caller's store and token |
| `Agent.GetEnv` | src/app/api/agent/route.ts:50-54 | succeeds iff the variable is set and non-empty; otherwise "Missing env: " and the name |
| `Agent.BraceSpan` | src/app/api/agent/route.ts:101 | a span starts at a `{`, ends at a later `}`, and lies inside the text |
| `Agent.BraceSpanIsWidest` | src/app/api/agent/route.ts:101-102 | there is no span iff no `{` precedes a `}`; otherwise every such pair lies within the span (first `{` to last `}`) |
| `Agent.SpanText` | src/app/api/agent/route.ts:103 | the text parsed in the fallback is contiguous, starts with `{` and ends with `}` |
| `Agent.ExtractJson` | src/app/api/agent/route.ts:96-105 | the whole text is parsed first; the span is parsed only when that fails; with no span the error quotes the text |
| `Agent.Interpret` | src/app/api/agent/route.ts:107-122 | a GraphQL action iff `type == "graphql"` and `query` is a string; the query is unchanged and falsy variables become `{}`; otherwise the intent the candidate validates to, or "Could not determine action from model response" |
| `Agent.WrappedIntentIsBare` | src/app/api/agent/route.ts:115-119 | `{"intent": X}` and `X` give the same result when X has no truthy `intent` and is not GraphQL-shaped |
| `Agent.GraphQLTakesPrecedence` | src/app/api/agent/route.ts:107-115 | the GraphQL shape wins even when the value is also a valid intent |
| `Agent.McpClient.constructor` | src/app/api/agent/route.ts:73 | a new client is closed and has never been connected or closed |
| `Agent.McpClient.Connect` | src/app/api/agent/route.ts:74 | connecting succeeds iff the transport does not fail, and then the client is open |
| `Agent.McpClient.Close` | src/app/api/agent/route.ts:123-126 | closing an open client closes it and counts one close |
| `Agent.Infer` | src/app/api/agent/route.ts:62-127 | the first failing step decides the error: the key's "Missing env" error, the connect error, the model's error, or the extraction error; when every step succeeds, the result is the interpretation of the extracted reply |
| `Agent.InferAction` | src/app/api/agent/route.ts:62-127 | returns `Infer`'s result; no client is made when the key is missing; a connected client is closed exactly once on every way out, and an unconnected one never |
| `Agent.SuccessKind` | src/app/api/agent/route.ts:145-187 | the success `type` depends only on the kind of action, and the kind can be read back from it |
| `Agent.SuccessKindsDistinct` | src/app/api/agent/route.ts:145-187 | the seven success tags are pairwise distinct and none is "text" |
| `Agent.SuccessDependsOnKindOnly` | src/app/api/agent/route.ts:145-187 | two actions of the same kind succeed with the same `type` and the same message, whatever their parameters |
| `Agent.ExecuteIntent` | src/app/api/agent/route.ts:157-187 | runs exactly the intent's backend operation, with the listing limit defaulting to 24 |
| `Agent.IntentExchange` | src/app/api/agent/route.ts:157-187 | a missing store variable fails every intent with that error and nothing sent |
| `Agent.ListingLimitDefault` | src/app/api/agent/route.ts:159-185 | a listing intent without a limit runs exactly as one with limit 24 |
| `Agent.DispatchExchange` | src/app/api/agent/route.ts:145-187 | an intent sends exactly its REST operation's requests and succeeds iff that operation does, with the body as data; a GraphQL action is exactly the `shopifyGraphQL` exchange of its query and variables |
| `Agent.Execute` | src/app/api/agent/route.ts:145-187 | runs exactly the action's backend operation |
| `Agent.DispatchTargetsStore` | src/app/api/agent/route.ts:145-187 | each action sends at most one request (two for a removal); a missing store variable sends nothing; every request goes to the configured store with its token |
| `Agent.PromptOf` | src/app/api/agent/route.ts:132-142 | the prompt is `String(prompt ?? "")`: "" when `prompt` is missing or null, and otherwise `String` of its value, so a string is used as is; a null body fails to destructure |
| `Agent.Failure` | src/app/api/agent/route.ts:194-197 | every failure answers status 200, not a success, tag "text", no data, and the apology followed by the error's message, which can be read back |
| `Agent.PostExchange` | src/app/api/agent/route.ts:129-201 | the status is always 200; a success has a non-"text" tag; a failure has tag "text" and starts with the apology sentence |
| `Agent.PostSucceedsIffAllSteps` | src/app/api/agent/route.ts:129-197 | success iff the prompt is read, an action is inferred and its operation succeeds; a success carries the action's tag and message and the backend data; nothing is sent unless an action was inferred |
| `Agent.Post` | src/app/api/agent/route.ts:129-201 | performs the POST exchange |
| `Middleware.Route` | src/middleware.ts:3-24 | a redirect to `/install` iff the path is exactly `/` and `shop` is missing or empty |
| `Middleware.BypassAlwaysPasses` | src/middleware.ts:8-15 | a path under `/api/auth`, `/api/webhooks`, `/_next` or `/favicon` passes, whatever `shop` is |
| `Middleware.PrefixBypassIsTextual` | src/middleware.ts:9 | any path that begins with `/api/auth`, such as `/api/authorize`, passes too |
| `Auth.ShopDomain` | src/app/api/auth/route.ts:14 | the result contains `.myshopify.com`; it is the input iff the input already contains it, and otherwise the input with the suffix |
| `Auth.ShopDomainIdempotent` | src/app/api/auth/route.ts:14 | normalising twice is normalising once |
| `Auth.JoinSplitRoundTrip` | src/app/api/auth/route.ts:15 | comma-joined scopes split back into the scope list when no scope has a comma |
| `Auth.Join` | src/app/api/auth/route.ts:15 | one scope joins to itself; with more, the text starts with the first scope and a comma |
| `Auth.DefaultScopesRecovered` | src/lib/shopify-app.ts:6 | the app's scopes are recovered from their joined form |
| `Auth.EncodeURIComponent` | src/app/api/auth/route.ts:21-22 | the output has only unescaped characters and `%`, so never `&`, `=`, `?` or `#`; its correctness is the decoding round trip below |
| `Auth.EncodeChar` | src/app/api/auth/route.ts:21-22 | unescaped characters stay; every other character becomes a run of `%` escapes, which `Auth.DecodeEncodeChar` reads back as that character |
| `Auth.EncodeConcat` | src/app/api/auth/route.ts:21-22 | encoding a concatenation is concatenating the encodings |
| `Auth.EncodeIdentityIff` | src/app/api/auth/route.ts:21-22 | a string is unchanged by encoding iff all its characters are unescaped ones |
| `Auth.Utf8RoundTrip` | src/app/api/auth/route.ts:21-22 | a character's UTF-8 bytes announce their number in the first byte and decode back to the character |
| `Auth.PercentBytesRoundTrip` | src/app/api/auth/route.ts:21-22 | the `%XY` escapes of a byte sequence read back as that sequence |
| `Auth.DecodeEncodeChar` | src/app/api/auth/route.ts:21-22 | decoding reads one encoded character off the front of any text |
| `Auth.DecodeEncodeRoundTrip` | src/app/api/auth/route.ts:21-22 | `decodeURIComponent(encodeURIComponent(s)) == s` for every string |
| `Auth.EncodeInjective` | src/app/api/auth/route.ts:21-22 | different strings have different encodings, so the scope and callback values are kept exactly |
| `Auth.StateHasNoAmpersand` | src/app/api/auth/route.ts:17 | the base-36 state contains no `&` |
| `Auth.StateOf` | src/app/api/auth/route.ts:17 | the state is the random text from index 7 on (empty when shorter), and is base-36 text when the random text is |
| `Auth.AuthorizeUrl` | src/app/api/auth/route.ts:19-23 | the URL starts with the store's authorize page |
| `Auth.Begin` | src/app/api/auth/route.ts:4-29 | a 400 "Missing shop parameter" error iff `shop` is missing or empty; a 500 "Authentication failed" iff the shop is given and the URL parser rejects its authorize URL; otherwise a redirect to exactly that URL |
| `Auth.AuthorizeQueryParams` | src/app/api/auth/route.ts:14-23 | the query is exactly client_id, scope, redirect_uri and state, in that order, with the key, the encoded joined scopes, the encoded callback and the state as values |
| `McpServer.GetEnv` | mcp/shopify-server.mjs:8-12 | succeeds iff the variable is set and non-empty; otherwise "Missing env: " and the name |
| `McpServer.ToolNames` | mcp/shopify-server.mjs:51-73 | the names are those of the tool list, in order |
| `McpServer.ToolTable` | mcp/shopify-server.mjs:51-73 | exactly the two tools; only the raw tool requires `query`; `first` is an integer in 1..250 defaulting to 10 |
| `McpServer.ToolCall` | mcp/shopify-server.mjs:75-87 | a call is accepted iff the name is in the tool list; any other name gives "Unknown tool: " and the name; the products tool runs the products query with `first` as its only variable |
| `McpServer.ToolsForwardArguments` | mcp/shopify-server.mjs:76-84 | for any arguments object, the raw tool forwards its `query` and `variables` unchanged (each undefined when absent, other keys ignored), and both are undefined when the arguments are absent or null; `first` is used when present and non-null, and is 10 otherwise |
| `McpServer.FirstArg` | mcp/shopify-server.mjs:77 | `arguments?.first ?? 10`: the given `first` when present and not null, and 10 otherwise; never null |
| `McpServer.McpGraphQLExchange` | mcp/shopify-server.mjs:14-29 | a missing store or token fails with its error and nothing sent (store first); with both set, exactly one POST of `{query, variables}` to the store's `/graphql.json` with the token, and the result is the GraphQL rule with the "GraphQL error: " prefix applied to the first pending reply, or "fetch failed" when none is pending |
| `McpServer.CallExchange` | mcp/shopify-server.mjs:75-87 | an unknown tool fails with nothing sent; a success comes from a known tool after exactly one request |
| `McpServer.Content` | mcp/shopify-server.mjs:79 | the tool result has only `content`, a one-item list whose item has type "json" and the data under `json` (absent when the data is undefined) |
| `McpServer.McpGraphQL` | mcp/shopify-server.mjs:14-29 | performs the server's GraphQL exchange, with the "GraphQL error: " prefix |
| `McpServer.CallTool` | mcp/shopify-server.mjs:75-87 | performs the tools/call exchange and wraps the data as a "json" content item |
| `McpServer.Server.constructor` | mcp/shopify-server.mjs:49 | a new server has no handlers and is not connected |
| `McpServer.Server.SetRequestHandler` | mcp/shopify-server.mjs:51 | registering appends the handler |
| `McpServer.Server.Connect` | mcp/shopify-server.mjs:89 | connecting keeps the handlers |
| `McpServer.Start` | mcp/shopify-server.mjs:47-90 | both handlers are registered before the server connects, so it answers both kinds of request |

## Left out

- The model call (`generateContent`) and the tool client's stdio transport, launched through `npx`, are foreign I/O. `generate` stands for the call, and `connectFailure` for the transport's failure.
- The prompt framing text is left out. This covers the system guide, the instructions around the user's prompt, and the guide text itself. The guide's shapes are checked as data (`Intents.Guide`).
- `String(response.text || "")` is folded into `generate`: it returns the text already defaulted to "".
- `JSON.parse` and `JSON.stringify` are parameters. Numbers are integers plus a marker for non-integers. JavaScript's formatting of large or fractional numbers is not modelled.
- The schema library's internals are left out; its six schemas are written directly.
- Headers other than the access token are left out: `Content-Type` and the caller-supplied headers that `shopifyRequest` spreads in. So is `cache: "no-store"`. The modelled code passes no extra headers.
- A `client.close()` that throws is not modelled; closing always succeeds.
- Logging and timing (`Date.now`) are left out, as are the framework's request and response objects.
- `Math.random()` is a parameter: its base-36 text.
- Middleware: the framework's matcher pattern is left out. The redirect's absolute URL is reduced to its path, `/install`.
- Auth.Begin: `NextResponse.redirect` parses the authorize URL, and that parse is a parameter, `parsesAsUrl`. The parser's host rules are not modelled. Such a URL is rejected, for example, when the shop holds a space, and the handler then answers 500 "Authentication failed". The `Location` header is modelled as the URL as built, not the parser's normalised form (which lower-cases the host, for instance). Logging in the `catch` branch is left out.
- Auth: the environment values `apiKey` and `appUrl` are parameters. An unset one would be written as "undefined"; that case is not modelled.
- The agent's `default` branch of the intent switch cannot be reached: validation admits only the six names. It is not modelled.
- `McpServer.ProductsQuery` keeps the products query's fields but not its whitespace.
- The `listProductsGraphQL` query text (src/lib/shopify.ts:162-179) is not modelled. Neither are the UI components, the OAuth callback, or the one-line API routes that forward to `shopifyRequest`.
- Concurrency: the `async` steps run in sequence within one request. There is nothing shared to model.
