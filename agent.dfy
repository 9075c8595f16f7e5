/** The agent endpoint (src/app/api/agent/route.ts): turning the language
    model's reply into an action, executing that action against the store,
    and wrapping the outcome in the JSON envelope the chat UI reads.

    The model call and `JSON.parse` are ports: `generate` maps the user's
    prompt to the reply text (or the error the call throws), and `parse`
    maps a text to the value `JSON.parse` returns (or the error it throws). */
module Agent {
  import opened Results
  import opened Text
  import opened JsonValues
  import opened Intents
  import opened Http
  import opened Shopify

  /** What the model asked for: a raw Admin GraphQL call, or one of the
      structured intents. */
  datatype Action =
    | GraphQLAction(query: string, variables: Json)
    | IntentAction(intent: Intent)

  const ModelKeyVar: string := "GOOGLE_GENERATIVE_AI_API_KEY"

  /** The route's own `getEnv`: an unset or empty variable is an error whose
      message names it. */
  function GetEnv(env: Env, name: string): (r: Result<string>)
    ensures r.Ok? <==> name in env && env[name] != ""
    ensures r.Ok? ==> r.value == env[name]
    ensures r.Err? ==> r.message == "Missing env: " + name
  {
    if name in env && env[name] != "" then Ok(env[name]) else Err("Missing env: " + name)
  }

  // ---------------------------------------------------------------------
  // Extraction of a JSON value from the reply text.

  /** A stretch of a text, by the positions of its first and last characters. */
  datatype Span = Span(first: nat, last: nat)

  /** What `/\{[\s\S]*\}/` matches: from the first `{` to the last `}`, when
      that `}` comes after that `{`. */
  function BraceSpan(text: string): (r: Option<Span>)
    ensures r.Some? ==> r.value.first < r.value.last < |text|
    ensures r.Some? ==> text[r.value.first] == '{' && text[r.value.last] == '}'
  {
    match (FirstIndex(text, '{'), LastIndex(text, '}'))
    case (Some(i), Some(j)) => if i < j then Some(Span(i, j)) else None
    case _ => None
  }

  /** The brace span is the widest one: every `{` that comes before some `}`
      lies at or after its start, and every such `}` at or before its end;
      and there is no span exactly when no `{` comes before a `}`. */
  lemma BraceSpanIsWidest(text: string)
    ensures BraceSpan(text).None? <==>
      !exists i, j :: 0 <= i < j < |text| && text[i] == '{' && text[j] == '}'
    ensures BraceSpan(text).Some? ==>
      forall i, j :: 0 <= i < j < |text| && text[i] == '{' && text[j] == '}' ==>
        BraceSpan(text).value.first <= i && j <= BraceSpan(text).value.last
  {
    var fi, li := FirstIndex(text, '{'), LastIndex(text, '}');
    forall i, j | 0 <= i < j < |text| && text[i] == '{' && text[j] == '}'
      ensures fi.Some? && li.Some? && fi.value <= i && j <= li.value
    {
      assert text[i] in text;
      assert text[j] in text;
      assert forall a :: 0 <= a < fi.value ==> text[..fi.value][a] == text[a];
      assert forall b :: li.value < b < |text| ==> text[li.value + 1..][b - li.value - 1] == text[b];
    }
  }

  /** The characters of the brace span, the text the fallback parses. */
  function SpanText(text: string, s: Span): (r: string)
    requires s.first < s.last < |text|
    ensures |r| >= 2 && r[0] == text[s.first] && r[|r| - 1] == text[s.last]
  {
    text[s.first..s.last + 1]
  }

  /** The parsed reply: the whole text when it parses; otherwise the brace
      span, parsed (its parse error propagates); and when there is no span,
      an error quoting the text. */
  function ExtractJson(text: string, parse: string -> Result<Json>): (r: Result<Json>)
    ensures parse(text).Ok? ==> r == parse(text)
    ensures parse(text).Err? && BraceSpan(text).None? ==>
      r == Err("Model did not return valid JSON: " + text)
    ensures parse(text).Err? && BraceSpan(text).Some? ==>
      r == parse(SpanText(text, BraceSpan(text).value))
  {
    if parse(text).Ok? then parse(text)
    else match BraceSpan(text)
      case None => Err("Model did not return valid JSON: " + text)
      case Some(s) => parse(SpanText(text, s))
  }

  // ---------------------------------------------------------------------
  // Interpretation of the parsed value.

  const Undetermined: string := "Could not determine action from model response"

  /** `json?.type === "graphql" && typeof json.query === "string"`. */
  predicate IsGraphQLShaped(j: Json) {
    Field(j, "type") == Some(JString("graphql")) && Field(j, "query").Some? && Field(j, "query").value.JString?
  }

  /** The value the intent schema is applied to: the `intent` field when it
      is truthy, the value itself otherwise. */
  function IntentCandidate(j: Json): Json {
    if Present(Field(j, "intent")) then Field(j, "intent").value else j
  }

  /** The action a parsed value denotes. The GraphQL shape is checked first,
      and it is a GraphQL action exactly when the value has that shape, with
      the query unchanged and the variables, when absent or falsy, `{}`.
      Otherwise it is the intent the candidate validates to, and when it
      does not validate, the "could not determine" error. */
  function Interpret(j: Json): (r: Result<Action>)
    ensures r.Ok? && r.value.GraphQLAction? <==> IsGraphQLShaped(j)
    ensures IsGraphQLShaped(j) ==> r.value.query == Field(j, "query").value.s
    ensures IsGraphQLShaped(j) ==>
      r.value.variables == (if Present(Field(j, "variables")) then Field(j, "variables").value else JObject(map[]))
    ensures !IsGraphQLShaped(j) ==>
      r == (match ValidateIntent(IntentCandidate(j))
            case Some(i) => Ok(IntentAction(i))
            case None => Err(Undetermined))
  {
    if IsGraphQLShaped(j) then
      Ok(GraphQLAction(Field(j, "query").value.s, OrIfFalsy(Field(j, "variables"), JObject(map[]))))
    else match ValidateIntent(IntentCandidate(j))
      case Some(i) => Ok(IntentAction(i))
      case None => Err(Undetermined)
  }

  /** Wrapped and bare intents mean the same: `{"intent": x}` is read as `x`
      itself whenever `x` has no truthy `intent` of its own and is not
      GraphQL-shaped. */
  lemma WrappedIntentIsBare(x: Json)
    requires !Present(Field(x, "intent")) && !IsGraphQLShaped(x)
    ensures Interpret(JObject(map["intent" := x])) == Interpret(x)
  {
    var w := JObject(map["intent" := x]);
    assert Field(w, "type").None?;
    assert Field(w, "intent") == Some(x);
    if !Truthy(x) {
      assert Field(w, "name").None?;
      assert ValidateIntent(w).None?;
      assert ValidateIntent(x).None?;
    }
  }

  /** The GraphQL shape wins even over a value that is also a valid intent,
      bare or wrapped. */
  lemma GraphQLTakesPrecedence(j: Json)
    requires IsGraphQLShaped(j) && ValidateIntent(IntentCandidate(j)).Some?
    ensures Interpret(j).Ok? && Interpret(j).value.GraphQLAction?
  {
  }

  // ---------------------------------------------------------------------
  // Inference, with the tool client's lifecycle.

  /** The tool client the model call is given. Its ghost counters record how
      often it was connected and closed. */
  class McpClient {
    var open: bool
    ghost var connects: nat
    ghost var closes: nat

    constructor ()
      ensures !open && connects == 0 && closes == 0
    {
      open := false;
      connects := 0;
      closes := 0;
    }

    /** `client.connect(transport)`; `failure` is the error the transport
        raises, if it does. */
    method Connect(failure: Option<string>) returns (r: Result<bool>)
      requires !open
      modifies this
      ensures r.Ok? <==> failure.None?
      ensures r.Err? ==> r.message == failure.value
      ensures open == r.Ok? && closes == old(closes)
      ensures connects == old(connects) + (if r.Ok? then 1 else 0)
    {
      if failure.Some? {
        r := Err(failure.value);
      } else {
        open := true;
        connects := connects + 1;
        r := Ok(true);
      }
    }

    /** `client.close()`. */
    method Close()
      requires open
      modifies this
      ensures !open && closes == old(closes) + 1 && connects == old(connects)
    {
      open := false;
      closes := closes + 1;
    }
  }

  /** What `inferAction(prompt)` returns or throws: the model key must be
      set; the client must connect; then the model's reply is extracted
      and interpreted. */
  function Infer(env: Env, prompt: string, connectFailure: Option<string>,
                 generate: string -> Result<string>, parse: string -> Result<Json>): (r: Result<Action>)
    ensures r.Ok? ==> GetEnv(env, ModelKeyVar).Ok? && connectFailure.None? && generate(prompt).Ok?
    ensures r.Ok? ==> ExtractJson(generate(prompt).value, parse).Ok?
    ensures r.Ok? ==> r == Interpret(ExtractJson(generate(prompt).value, parse).value)
    ensures GetEnv(env, ModelKeyVar).Err? ==> r == Err(GetEnv(env, ModelKeyVar).message)
    ensures GetEnv(env, ModelKeyVar).Ok? && connectFailure.Some? ==> r == Err(connectFailure.value)
    ensures GetEnv(env, ModelKeyVar).Ok? && connectFailure.None? && generate(prompt).Err? ==>
      r == Err(generate(prompt).message)
    ensures GetEnv(env, ModelKeyVar).Ok? && connectFailure.None? && generate(prompt).Ok? ==>
      (ExtractJson(generate(prompt).value, parse).Err? ==>
         r == Err(ExtractJson(generate(prompt).value, parse).message)) &&
      (ExtractJson(generate(prompt).value, parse).Ok? ==>
         r == Interpret(ExtractJson(generate(prompt).value, parse).value))
  {
    var _ :- GetEnv(env, ModelKeyVar);
    if connectFailure.Some? then Err(connectFailure.value)
    else
      var text :- generate(prompt);
      var j :- ExtractJson(text, parse);
      Interpret(j)
  }

  /** `inferAction(prompt)`. The client is made only once the key is read;
      once it has connected it is closed exactly once, on every way out:
      a result, a model or parse failure, or an uninterpretable reply. */
  method InferAction(env: Env, prompt: string, connectFailure: Option<string>,
                     generate: string -> Result<string>, parse: string -> Result<Json>)
    returns (r: Result<Action>, client: McpClient?)
    ensures r == Infer(env, prompt, connectFailure, generate, parse)
    ensures client == null <==> GetEnv(env, ModelKeyVar).Err?
    ensures client != null ==> (fresh(client) && !client.open &&
      client.connects == (if connectFailure.None? then 1 else 0) && client.closes == client.connects)
  {
    client := null;
    var key := GetEnv(env, ModelKeyVar);
    if key.Err? {
      r := Err(key.message);
      return;
    }
    client := new McpClient();
    var connected := client.Connect(connectFailure);
    if connected.Err? {
      r := Err(connected.message);
      return;
    }
    // The body of the try block; the client is closed after it, whatever its outcome.
    var text := generate(prompt);
    if text.Err? {
      r := Err(text.message);
    } else {
      var json := parse(text.value);
      if json.Err? {
        var span := BraceSpan(text.value);
        if span.None? {
          json := Err("Model did not return valid JSON: " + text.value);
        } else {
          json := parse(SpanText(text.value, span.value));
        }
      }
      if json.Err? {
        r := Err(json.message);
      } else {
        r := Interpret(json.value);
      }
    }
    client.Close();
  }

  // ---------------------------------------------------------------------
  // Dispatch and the response envelope.

  /** The `type` tag of a successful response for each kind of action. It
      depends on the kind of action only, and the kind can be read back from
      it. */
  function SuccessKind(a: Action): (k: string)
    ensures k == KindOfTag(ActionTag(a))
    ensures TagOfKind(k) == ActionTag(a)
  {
    match a
    case GraphQLAction(_, _) => "graphql_result"
    case IntentAction(i) =>
      match i
      case ListProducts(_) => "products"
      case UpdateProduct(_, _, _) => "update_product"
      case CreateCustomCollection(_, _) => "create_custom_collection"
      case AddProductToCollection(_, _) => "add_product_to_collection"
      case RemoveProductFromCollection(_, _) => "remove_product_from_collection"
      case ListCustomers(_) => "customers"
  }

  function SuccessMessage(a: Action): string {
    match a
    case GraphQLAction(_, _) => "Operation completed successfully."
    case IntentAction(i) =>
      match i
      case ListProducts(_) => "Fetched products successfully."
      case UpdateProduct(_, _, _) => "Product updated successfully."
      case CreateCustomCollection(_, _) => "Collection created successfully."
      case AddProductToCollection(_, _) => "Product added to collection."
      case RemoveProductFromCollection(_, _) => "Product removed from collection."
      case ListCustomers(_) => "Fetched customers successfully."
  }

  /** Which of the seven kinds an action is: "graphql" or the intent's name. */
  function ActionTag(a: Action): string {
    match a
    case GraphQLAction(_, _) => "graphql"
    case IntentAction(i) => Name(i)
  }

  /** The success tag of each kind, by the kind's tag. */
  function KindOfTag(tag: string): string {
    if tag == "graphql" then "graphql_result"
    else if tag == "list_products" then "products"
    else if tag == "list_customers" then "customers"
    else tag
  }

  /** The kind's tag, read back from a success tag. */
  function TagOfKind(kind: string): string {
    if kind == "graphql_result" then "graphql"
    else if kind == "products" then "list_products"
    else if kind == "customers" then "list_customers"
    else kind
  }

  /** The success tags tell the seven kinds apart, and none of them is the
      "text" tag of a failure. */
  lemma SuccessKindsDistinct(a: Action, b: Action)
    ensures SuccessKind(a) != "text"
    ensures SuccessKind(a) == SuccessKind(b) <==> ActionTag(a) == ActionTag(b)
  {
  }

  /** Two actions of the same kind succeed with the same tag and the same
      message, whatever their parameters. */
  lemma SuccessDependsOnKindOnly(a: Action, b: Action)
    requires ActionTag(a) == ActionTag(b)
    ensures SuccessKind(a) == SuccessKind(b)
    ensures SuccessMessage(a) == SuccessMessage(b)
  {
    match a
    case GraphQLAction(_, _) =>
      assert b.GraphQLAction?;
    case IntentAction(i) =>
      assert b.IntentAction? && Name(b.intent) == Name(i);
      match i
      case ListProducts(_) => assert b.intent.ListProducts?;
      case UpdateProduct(_, _, _) => assert b.intent.UpdateProduct?;
      case CreateCustomCollection(_, _) => assert b.intent.CreateCustomCollection?;
      case AddProductToCollection(_, _) => assert b.intent.AddProductToCollection?;
      case RemoveProductFromCollection(_, _) => assert b.intent.RemoveProductFromCollection?;
      case ListCustomers(_) => assert b.intent.ListCustomers?;
  }

  /** A REST operation's exchange, with its body as the response data. */
  function AsData(e: Exchange<Result<Json>>): Exchange<Result<Option<Json>>> {
    Exchange(e.sent, if e.result.Ok? then Ok(Some(e.result.value)) else Err(e.result.message))
  }

  /** The one REST operation an intent runs. The listing limit defaults to 24. */
  function IntentExchange(env: Env, i: Intent, replies: seq<Reply>): (e: Exchange<Result<Json>>)
    ensures StoreSession(env).Err? ==> e == Exchange([], Err(StoreSession(env).message))
  {
    match i
    case ListProducts(limit) => ListProductsExchange(env, Some(limit.GetOr(DefaultLimit)), replies)
    case UpdateProduct(id, title, price) => UpdateProductExchange(env, id, title, price, replies)
    case CreateCustomCollection(title, bodyHtml) => CreateCustomCollectionExchange(env, title, bodyHtml, replies)
    case AddProductToCollection(c, p) => AddProductExchange(env, c, p, replies)
    case RemoveProductFromCollection(c, p) => RemoveProductExchange(env, c, p, replies)
    case ListCustomers(limit) => ListCustomersExchange(env, Some(limit.GetOr(DefaultLimit)), replies)
  }

  /** A listing intent without a limit runs exactly as one with limit 24. */
  lemma ListingLimitDefault(env: Env, replies: seq<Reply>)
    ensures IntentExchange(env, Intents.ListProducts(None), replies)
         == IntentExchange(env, Intents.ListProducts(Some(DefaultLimit)), replies)
    ensures IntentExchange(env, Intents.ListCustomers(None), replies)
         == IntentExchange(env, Intents.ListCustomers(Some(DefaultLimit)), replies)
  {
  }

  /** The one backend operation an action runs. An intent makes its REST
      call, whose body is always the data of a success. */
  function DispatchExchange(env: Env, a: Action, replies: seq<Reply>, stringify: Json -> string)
    : (e: Exchange<Result<Option<Json>>>)
    ensures a.IntentAction? ==> e.sent == IntentExchange(env, a.intent, replies).sent
    ensures a.IntentAction? ==>
      (e.result.Ok? <==> IntentExchange(env, a.intent, replies).result.Ok?) &&
      (e.result.Ok? ==> e.result.value == Some(IntentExchange(env, a.intent, replies).result.value))
    ensures a.GraphQLAction? ==> e == GraphQLExchange(env, a.query, Some(a.variables), replies, stringify)
  {
    match a
    case GraphQLAction(query, variables) => GraphQLExchange(env, query, Some(variables), replies, stringify)
    case IntentAction(i) => AsData(IntentExchange(env, i, replies))
  }

  /** Runs an intent's REST operation (the `switch` on its name). */
  method ExecuteIntent(net: Network, env: Env, i: Intent) returns (r: Result<Json>)
    modifies net
    ensures Performed(net, IntentExchange(env, i, old(net.replies)), r)
  {
    match i {
      case ListProducts(limit) =>
        r := Shopify.ListProducts(net, env, Some(limit.GetOr(DefaultLimit)));
      case UpdateProduct(id, title, price) =>
        r := Shopify.UpdateProduct(net, env, id, title, price);
      case CreateCustomCollection(title, bodyHtml) =>
        r := Shopify.CreateCustomCollection(net, env, title, bodyHtml);
      case AddProductToCollection(c, p) =>
        r := AddProductToCustomCollection(net, env, c, p);
      case RemoveProductFromCollection(c, p) =>
        r := RemoveProductFromCustomCollection(net, env, c, p);
      case ListCustomers(limit) =>
        r := Shopify.ListCustomers(net, env, Some(limit.GetOr(DefaultLimit)));
    }
  }

  /** Runs the action's backend operation. */
  method Execute(net: Network, env: Env, a: Action, stringify: Json -> string) returns (r: Result<Option<Json>>)
    modifies net
    ensures Performed(net, DispatchExchange(env, a, old(net.replies), stringify), r)
  {
    match a
    case GraphQLAction(query, variables) =>
      r := ShopifyGraphQL(net, env, query, Some(variables), stringify);
    case IntentAction(i) =>
      var data := ExecuteIntent(net, env, i);
      r := if data.Ok? then Ok(Some(data.value)) else Err(data.message);
  }

  /** Each action makes at most one request, except removal from a
      collection, which makes at most two (lookup, then delete); and every
      request goes to the configured store's admin API with its token. */
  lemma {:induction false} DispatchTargetsStore(env: Env, a: Action, replies: seq<Reply>, stringify: Json -> string)
    ensures var e := DispatchExchange(env, a, replies, stringify);
      |e.sent| <= (if a.IntentAction? && a.intent.RemoveProductFromCollection? then 2 else 1)
    ensures var e := DispatchExchange(env, a, replies, stringify);
      StoreSession(env).Err? ==> e.sent == [] && e.result.Err?
    ensures var e := DispatchExchange(env, a, replies, stringify);
      forall k :: 0 <= k < |e.sent| ==> SentToStore(env, e.sent[k])
  {
    match a
    case GraphQLAction(query, variables) =>
      GraphQLSentToStore(env, query, Some(variables), replies, stringify);
    case IntentAction(i) =>
      match i
      case ListProducts(limit) =>
        RequestSentToStore(env, GET, ListProductsPath(Some(limit.GetOr(DefaultLimit))), None, replies);
      case UpdateProduct(id, title, price) =>
        RequestSentToStore(env, PUT, ProductPath(id), Some(UpdatePayload(id, title, price)), replies);
      case CreateCustomCollection(title, bodyHtml) =>
        RequestSentToStore(env, POST, "/custom_collections.json", Some(CollectionBody(title, bodyHtml)), replies);
      case AddProductToCollection(c, p) =>
        RequestSentToStore(env, POST, "/collects.json", Some(CollectBody(c, p)), replies);
      case RemoveProductFromCollection(c, p) =>
        RemoveSentToStore(env, c, p, replies);
      case ListCustomers(limit) =>
        RequestSentToStore(env, GET, ListCustomersPath(Some(limit.GetOr(DefaultLimit))), None, replies);
  }

  /** The JSON body of the endpoint's response, with its HTTP status. */
  datatype Envelope = Envelope(status: int, success: bool, kind: string, message: string, data: Option<Json>)

  const Apology: string := "I couldn\U{2019}t safely complete that request. "

  /** The `TypeError` destructuring `{ prompt }` from a `null` body throws. */
  const NullBodyRead: string := "Cannot destructure property 'prompt' of '(intermediate value)' as it is null."

  /** Every failure becomes this: status 200, not a success, tag "text". */
  function Failure(message: string): (r: Envelope)
    ensures r.status == 200 && !r.success && r.kind == "text" && r.data.None?
    ensures StartsWith(r.message, Apology) && r.message[|Apology|..] == message
  {
    Envelope(200, false, "text", Apology + message, None)
  }

  /** The prompt handed to inference: `String(prompt ?? "")` of the request
      body's `prompt`; a `null` body cannot be destructured. */
  function PromptOf(body: Json): (r: Result<string>)
    ensures r.Err? <==> body == JNull
    ensures body.JObject? && "prompt" in body.fields && body.fields["prompt"].JString? ==>
      r == Ok(body.fields["prompt"].s)
    ensures Field(body, "prompt").None? && body != JNull ==> r == Ok("")
    ensures Field(body, "prompt") == Some(JNull) ==> r == Ok("")
    ensures Field(body, "prompt").Some? && Field(body, "prompt").value != JNull ==>
      r == Ok(Show(Field(body, "prompt").value))
  {
    if body == JNull then Err(NullBodyRead)
    else Ok(Show(OrElse(Field(body, "prompt"), JString(""))))
  }

  /** `POST /api/agent` for a request whose body decodes as `body` (or fails
      to): the network exchange it makes and the envelope it answers with. */
  function PostExchange(env: Env, body: Result<Json>, connectFailure: Option<string>,
                        generate: string -> Result<string>, parse: string -> Result<Json>,
                        replies: seq<Reply>, stringify: Json -> string): (e: Exchange<Envelope>)
    ensures e.result.status == 200
    ensures e.result.success ==> e.result.kind != "text"
    ensures !e.result.success ==> e.result.kind == "text" && StartsWith(e.result.message, Apology)
  {
    var prompt :=
      match body
      case Err(m) => Err(m)
      case Ok(v) => PromptOf(v);
    if prompt.Err? then Exchange([], Failure(prompt.message))
    else
      var action := Infer(env, prompt.value, connectFailure, generate, parse);
      if action.Err? then Exchange([], Failure(action.message))
      else
        var run := DispatchExchange(env, action.value, replies, stringify);
        SuccessKindsDistinct(action.value, action.value);
        if run.result.Err? then Exchange(run.sent, Failure(run.result.message))
        else Exchange(run.sent, Envelope(200, true, SuccessKind(action.value), SuccessMessage(action.value),
                                         run.result.value))
  }

  /** A success reports the action's own tag and message and the backend's
      data; it happens exactly when the prompt is read, inference yields an
      action and that action's backend operation succeeds. Nothing is sent
      unless an action was inferred. */
  lemma PostSucceedsIffAllSteps(env: Env, body: Result<Json>, connectFailure: Option<string>,
                                generate: string -> Result<string>, parse: string -> Result<Json>,
                                replies: seq<Reply>, stringify: Json -> string)
    ensures var e := PostExchange(env, body, connectFailure, generate, parse, replies, stringify);
      e.result.success <==>
        body.Ok? && PromptOf(body.value).Ok? &&
        Infer(env, PromptOf(body.value).value, connectFailure, generate, parse).Ok? &&
        DispatchExchange(env, Infer(env, PromptOf(body.value).value, connectFailure, generate, parse).value,
                         replies, stringify).result.Ok?
    ensures var e := PostExchange(env, body, connectFailure, generate, parse, replies, stringify);
      e.result.success ==>
        var a := Infer(env, PromptOf(body.value).value, connectFailure, generate, parse).value;
        e.result.kind == SuccessKind(a) && e.result.message == SuccessMessage(a) &&
        e.result.data == DispatchExchange(env, a, replies, stringify).result.value
    ensures var e := PostExchange(env, body, connectFailure, generate, parse, replies, stringify);
      e.sent != [] ==> (body.Ok? && PromptOf(body.value).Ok? &&
        Infer(env, PromptOf(body.value).value, connectFailure, generate, parse).Ok?)
  {
  }

  /** `POST(req)`: read the prompt, infer the action, run it, and answer;
      any error on the way becomes the failure envelope. */
  method Post(net: Network, env: Env, body: Result<Json>, connectFailure: Option<string>,
              generate: string -> Result<string>, parse: string -> Result<Json>,
              stringify: Json -> string) returns (r: Envelope)
    modifies net
    ensures Performed(net, PostExchange(env, body, connectFailure, generate, parse, old(net.replies), stringify), r)
  {
    var prompt: Result<string>;
    if body.Err? {
      prompt := Err(body.message);
    } else {
      prompt := PromptOf(body.value);
    }
    if prompt.Err? {
      r := Failure(prompt.message);
      return;
    }
    var action, client := InferAction(env, prompt.value, connectFailure, generate, parse);
    if action.Err? {
      r := Failure(action.message);
      return;
    }
    var data := Execute(net, env, action.value, stringify);
    if data.Err? {
      r := Failure(data.message);
    } else {
      r := Envelope(200, true, SuccessKind(action.value), SuccessMessage(action.value), data.value);
    }
  }
}
