/** The closed set of structured operations the agent may ask for
    (src/lib/intents.ts): six shapes discriminated by `name`, their
    validation as the schema library applies it to a parsed JSON value, and
    the textual guide of the same six shapes that is shown to the model. */
module Intents {
  import opened Results
  import opened JsonValues

  /** A validated intent. Only the declared parameters survive validation;
      an optional parameter that was absent is `None`. */
  datatype Intent =
    | ListProducts(limit: Option<int>)
    | UpdateProduct(id: int, title: Option<string>, price: Option<string>)
    | CreateCustomCollection(collectionTitle: string, bodyHtml: Option<string>)
    | AddProductToCollection(collectionId: int, productId: int)
    | RemoveProductFromCollection(collectionId: int, productId: int)
    | ListCustomers(limit: Option<int>)

  /** The six discriminants, in the order the union lists them. */
  const IntentNames: seq<string> := [
    "list_products",
    "update_product",
    "create_custom_collection",
    "add_product_to_collection",
    "remove_product_from_collection",
    "list_customers"
  ]

  /** The bounds of `limit` for the two listing intents. */
  const MinLimit: int := 1
  const MaxLimit: int := 250

  /** The discriminant of an intent. */
  function Name(i: Intent): (n: string)
    ensures n in IntentNames
  {
    match i
    case ListProducts(_) => "list_products"
    case UpdateProduct(_, _, _) => "update_product"
    case CreateCustomCollection(_, _) => "create_custom_collection"
    case AddProductToCollection(_, _) => "add_product_to_collection"
    case RemoveProductFromCollection(_, _) => "remove_product_from_collection"
    case ListCustomers(_) => "list_customers"
  }

  predicate LimitInRange(limit: Option<int>) {
    limit.Some? ==> MinLimit <= limit.value <= MaxLimit
  }

  /** What every validated intent satisfies beyond its shape. */
  predicate WellFormed(i: Intent) {
    match i
    case ListProducts(limit) => LimitInRange(limit)
    case ListCustomers(limit) => LimitInRange(limit)
    case _ => true
  }

  /** The parameter keys each shape declares. */
  function DeclaredKeys(name: string): set<string> {
    if name == "list_products" || name == "list_customers" then {"limit"}
    else if name == "update_product" then {"id", "title", "price"}
    else if name == "create_custom_collection" then {"title", "body_html"}
    else if name == "add_product_to_collection" || name == "remove_product_from_collection" then
      {"collection_id", "product_id"}
    else {}
  }

  // The schema library's checks on one value. A key that is missing reads as
  // `None` (undefined); a key holding `null` is present.

  /** An object schema accepts an object, and neither `null` nor an array. */
  function AsObject(v: Option<Json>): Option<map<string, Json>> {
    if v.Some? && v.value.JObject? then Some(v.value.fields) else None
  }

  /** `.default({})`: a missing value is replaced by the empty object. */
  function DefaultEmpty(v: Option<Json>): Option<Json> {
    if v.None? then Some(JObject(map[])) else v
  }

  function Get(p: map<string, Json>, key: string): Option<Json> {
    if key in p then Some(p[key]) else None
  }

  /** `z.number().int()`: an integral number is required. */
  function RequiredInt(v: Option<Json>): Option<int> {
    if v.Some? && v.value.JInt? then Some(v.value.i) else None
  }

  /** `z.string()`: a string is required. */
  function RequiredString(v: Option<Json>): Option<string> {
    if v.Some? && v.value.JString? then Some(v.value.s) else None
  }

  /** `z.string().optional()`: a missing key is accepted as absent; a present
      key must hold a string (so `null` and numbers are rejected). */
  function OptionalString(v: Option<Json>): Option<Option<string>> {
    if v.None? then Some(None)
    else if v.value.JString? then Some(Some(v.value.s))
    else None
  }

  /** `z.number().int().min(1).max(250).optional()`. */
  function OptionalLimit(v: Option<Json>): Option<Option<int>> {
    if v.None? then Some(None)
    else if v.value.JInt? && MinLimit <= v.value.i <= MaxLimit then Some(Some(v.value.i))
    else None
  }

  /** The params schema selected by `name`, applied to the `params` value. */
  function ValidateParams(name: string, params: Option<Json>): Option<Intent> {
    if name == "list_products" || name == "list_customers" then
      var p :- AsObject(DefaultEmpty(params));
      var limit :- OptionalLimit(Get(p, "limit"));
      Some(if name == "list_products" then ListProducts(limit) else ListCustomers(limit))
    else if name == "update_product" then
      var p :- AsObject(params);
      var id :- RequiredInt(Get(p, "id"));
      var title :- OptionalString(Get(p, "title"));
      var price :- OptionalString(Get(p, "price"));
      Some(UpdateProduct(id, title, price))
    else if name == "create_custom_collection" then
      var p :- AsObject(params);
      var title :- RequiredString(Get(p, "title"));
      var bodyHtml :- OptionalString(Get(p, "body_html"));
      Some(CreateCustomCollection(title, bodyHtml))
    else if name == "add_product_to_collection" || name == "remove_product_from_collection" then
      var p :- AsObject(params);
      var collectionId :- RequiredInt(Get(p, "collection_id"));
      var productId :- RequiredInt(Get(p, "product_id"));
      Some(if name == "add_product_to_collection" then AddProductToCollection(collectionId, productId)
           else RemoveProductFromCollection(collectionId, productId))
    else None
  }

  /** The discriminated union's `safeParse`: the value must be an object whose
      `name` is one of the six discriminants; its `params` are then checked
      against that one shape only. */
  function ValidateIntent(j: Json): (r: Option<Intent>)
    ensures r.Some? ==> j.JObject? && Field(j, "name") == Some(JString(Name(r.value)))
    ensures r.Some? ==> WellFormed(r.value)
  {
    if !j.JObject? then None
    else
      var name := Field(j, "name");
      if name.Some? && name.value.JString? then ValidateParams(name.value.s, Field(j, "params"))
      else None
  }

  /** The params object validation reads: the given one, or `{}` when
      it is missing and the shape has a default. */
  function ParamsRead(j: Json): map<string, Json> {
    var p := DefaultEmpty(Field(j, "params"));
    if p.value.JObject? then p.value.fields else map[]
  }

  function IntEntry(key: string, v: Option<int>): map<string, Json> {
    if v.Some? then map[key := JInt(v.value)] else map[]
  }

  function StringEntry(key: string, v: Option<string>): map<string, Json> {
    if v.Some? then map[key := JString(v.value)] else map[]
  }

  /** The params of an intent as a JSON object, absent optionals omitted. */
  function Params(i: Intent): map<string, Json> {
    match i
    case ListProducts(limit) => IntEntry("limit", limit)
    case UpdateProduct(id, title, price) =>
      map["id" := JInt(id)] + StringEntry("title", title) + StringEntry("price", price)
    case CreateCustomCollection(title, bodyHtml) =>
      map["title" := JString(title)] + StringEntry("body_html", bodyHtml)
    case AddProductToCollection(c, p) => map["collection_id" := JInt(c), "product_id" := JInt(p)]
    case RemoveProductFromCollection(c, p) => map["collection_id" := JInt(c), "product_id" := JInt(p)]
    case ListCustomers(limit) => IntEntry("limit", limit)
  }

  /** The JSON form of an intent, as the model is asked to write it. */
  function Encode(i: Intent): Json {
    JObject(map["name" := JString(Name(i)), "params" := JObject(Params(i))])
  }

  /** Every well-formed intent survives being written out and validated again. */
  lemma EncodeRoundTrip(i: Intent)
    requires WellFormed(i)
    ensures ValidateIntent(Encode(i)) == Some(i)
  {
    var j := Encode(i);
    assert Field(j, "name") == Some(JString(Name(i)));
    assert Field(j, "params") == Some(JObject(Params(i)));
  }

  /** Validation keeps exactly the declared parameters of the selected shape,
      with their values unchanged, and drops every other key. */
  lemma {:induction false} ValidatedIsRestriction(j: Json)
    requires ValidateIntent(j).Some?
    ensures var i := ValidateIntent(j).value;
      Params(i) == map k | k in ParamsRead(j) && k in DeclaredKeys(Name(i)) :: ParamsRead(j)[k]
  {
    var i := ValidateIntent(j).value;
    var p := ParamsRead(j);
    var kept := map k | k in p && k in DeclaredKeys(Name(i)) :: p[k];
    assert AsObject(DefaultEmpty(Field(j, "params"))) == Some(p);
    match i
    case ListProducts(limit) =>
      assert kept.Keys == Params(i).Keys;
    case ListCustomers(limit) =>
      assert kept.Keys == Params(i).Keys;
    case UpdateProduct(id, title, price) =>
      assert kept.Keys == Params(i).Keys;
    case CreateCustomCollection(title, bodyHtml) =>
      assert kept.Keys == Params(i).Keys;
    case AddProductToCollection(c, pid) =>
      assert kept.Keys == Params(i).Keys;
    case RemoveProductFromCollection(c, pid) =>
      assert kept.Keys == Params(i).Keys;
  }

  /** A name outside the six is rejected whatever the params. */
  lemma UnknownNameRejected(j: Json)
    requires forall n :: n in IntentNames ==> Field(j, "name") != Some(JString(n))
    ensures ValidateIntent(j) == None
  {
  }

  /** A listing intent accepts a `limit` exactly when it is an integer from 1
      to 250; 0, 251 and non-integral numbers are rejected. */
  lemma LimitAcceptedIffInRange(name: string, limit: Json)
    requires name == "list_products" || name == "list_customers"
    ensures var j := JObject(map["name" := JString(name), "params" := JObject(map["limit" := limit])]);
      ValidateIntent(j).Some? <==> limit.JInt? && 1 <= limit.i <= 250
  {
    var j := JObject(map["name" := JString(name), "params" := JObject(map["limit" := limit])]);
    assert Field(j, "name") == Some(JString(name));
    assert Field(j, "params") == Some(JObject(map["limit" := limit]));
  }

  /** The declarative reading of the six params schemas: the required keys
      are present with their types, and the optional keys, when present,
      hold their types. Keys no shape declares are ignored. */
  predicate ParamsConform(name: string, p: map<string, Json>) {
    var intAt := (key: string) => key in p && p[key].JInt?;
    var stringAt := (key: string) => key in p && p[key].JString?;
    var optionalString := (key: string) => key in p ==> p[key].JString?;
    if name == "list_products" || name == "list_customers" then
      "limit" in p ==> p["limit"].JInt? && MinLimit <= p["limit"].i <= MaxLimit
    else if name == "update_product" then
      intAt("id") && optionalString("title") && optionalString("price")
    else if name == "create_custom_collection" then
      stringAt("title") && optionalString("body_html")
    else if name == "add_product_to_collection" || name == "remove_product_from_collection" then
      intAt("collection_id") && intAt("product_id")
    else false
  }

  /** An intent with a params object validates exactly when its name is one
      of the six and the params conform to that name's schema; so params
      that are valid for one shape are rejected under a name whose shape
      they do not fit. */
  lemma ValidationIffConforms(name: string, p: map<string, Json>)
    ensures var j := JObject(map["name" := JString(name), "params" := JObject(p)]);
      ValidateIntent(j).Some? <==> name in IntentNames && ParamsConform(name, p)
  {
    var j := JObject(map["name" := JString(name), "params" := JObject(p)]);
    assert Field(j, "name") == Some(JString(name));
    assert Field(j, "params") == Some(JObject(p));
  }

  /** A listing intent without `params` validates with no limit. */
  lemma MissingParamsDefault(name: string)
    requires name == "list_products" || name == "list_customers"
    ensures ValidateIntent(JObject(map["name" := JString(name)])).Some?
    ensures ValidateIntent(JObject(map["name" := JString(name)])).value.limit == None
  {
    var j := JObject(map["name" := JString(name)]);
    assert Field(j, "params") == None;
  }

  // ---------------------------------------------------------------------
  // The guide shown to the model (`INTENT_JSON_GUIDE`), as structured data:
  // for each shape its name and its params with a type and an optional mark.

  datatype FieldKind = NumberField | StringField

  datatype GuideField = GuideField(key: string, kind: FieldKind, optional: bool)

  datatype GuideShape = GuideShape(name: string, params: seq<GuideField>)

  const Guide: seq<GuideShape> := [
    GuideShape("list_products", [GuideField("limit", NumberField, true)]),
    GuideShape("update_product", [GuideField("id", NumberField, false),
                                  GuideField("title", StringField, true),
                                  GuideField("price", StringField, true)]),
    GuideShape("create_custom_collection", [GuideField("title", StringField, false),
                                            GuideField("body_html", StringField, true)]),
    GuideShape("add_product_to_collection", [GuideField("collection_id", NumberField, false),
                                             GuideField("product_id", NumberField, false)]),
    GuideShape("remove_product_from_collection", [GuideField("collection_id", NumberField, false),
                                                  GuideField("product_id", NumberField, false)]),
    GuideShape("list_customers", [GuideField("limit", NumberField, true)])
  ]

  /** The names the guide lists are the six discriminants of the union, in
      the same order, and each shape lists exactly the declared keys. */
  lemma GuideMatchesUnion()
    ensures |Guide| == |IntentNames|
    ensures forall k :: 0 <= k < |Guide| ==> Guide[k].name == IntentNames[k]
    ensures forall k :: 0 <= k < |Guide| ==>
      (set f | f in Guide[k].params :: f.key) == DeclaredKeys(Guide[k].name)
  {
    forall k | 0 <= k < |Guide|
      ensures (set f | f in Guide[k].params :: f.key) == DeclaredKeys(Guide[k].name)
    {
      var ps := Guide[k].params;
      var keys := set f | f in ps :: f.key;
      forall key | key in DeclaredKeys(Guide[k].name) ensures key in keys {
        var f :| f in ps && f.key == key;
      }
    }
  }

  function KindOf(v: Json): Option<FieldKind> {
    match v
    case JInt(_) => Some(NumberField)
    case JFrac(_) => Some(NumberField)
    case JString(_) => Some(StringField)
    case _ => None
  }

  /** A params object matches a guide field: a required key is present, and a
      present key holds a value of the written type. */
  predicate FieldConforms(f: GuideField, p: map<string, Json>) {
    (!f.optional ==> f.key in p) && (f.key in p ==> KindOf(p[f.key]) == Some(f.kind))
  }

  /** `j` is written as the guide's shape number `k` says. */
  predicate ConformsToShape(j: Json, k: nat)
    requires k < |Guide|
  {
    Field(j, "name") == Some(JString(Guide[k].name)) &&
    Field(j, "params").Some? && Field(j, "params").value.JObject? &&
    forall f | f in Guide[k].params :: FieldConforms(f, Field(j, "params").value.fields)
  }

  /** Whatever validates with its `params` given is written as the guide
      says. (The validator is stricter than the guide on numbers, which
      must be integral and, for `limit`, in range; and it also accepts a
      listing intent without `params`, which the guide does not show.) */
  lemma {:induction false} ValidatedConformsToGuide(j: Json)
    requires ValidateIntent(j).Some? && Field(j, "params").Some?
    ensures exists k: nat :: k < |Guide| && ConformsToShape(j, k)
  {
    var i := ValidateIntent(j).value;
    var p := Field(j, "params").value.fields;
    assert AsObject(DefaultEmpty(Field(j, "params"))) == Some(p);
    var k: nat := match i
      case ListProducts(_) => 0
      case UpdateProduct(_, _, _) => 1
      case CreateCustomCollection(_, _) => 2
      case AddProductToCollection(_, _) => 3
      case RemoveProductFromCollection(_, _) => 4
      case ListCustomers(_) => 5;
    assert Guide[k].name == Name(i);
    assert ConformsToShape(j, k);
  }
}
