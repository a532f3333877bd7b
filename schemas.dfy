/** The request schemas of the transaction routes: the body of the create
    request and the path parameters of the get-by-id request, as validated
    by the schema library before a handler touches the store. */
module Schemas {
  import opened Wrappers

  /** A decoded JSON request value. Numbers are integers in this model. */
  datatype Json =
    | JNull
    | JBool(b: bool)
    | JNumber(n: int)
    | JString(s: string)
    | JArray(items: seq<Json>)
    | JObject(fields: map<string, Json>)

  /** The two values the `type` field of a create request may take. */
  datatype Kind = Credit | Debit

  /** A create request that passed validation. */
  datatype CreateBody = CreateBody(title: string, amount: int, kind: Kind)

  /** One complaint of the validator: the body is not an object at all,
      or one named field is missing or has the wrong shape. */
  datatype Issue = NotAnObject | BadField(name: string)

  /** The validator reports every issue it finds, not only the first. */
  datatype ValidationError = ValidationError(issues: set<Issue>)

  const CreateFields: set<string> := {"title", "amount", "type"}

  /** The literal the request uses for a kind. */
  function KindName(kind: Kind): string {
    match kind
    case Credit => "credit"
    case Debit => "debit"
  }

  /** The enumeration schema for `type`: exactly the two literals are accepted,
      and each is read back as the kind it names. */
  function ParseKind(s: string): (r: Option<Kind>)
    ensures r.Some? <==> s == "credit" || s == "debit"
    ensures r.Some? ==> KindName(r.value) == s
  {
    if s == "credit" then Some(Credit)
    else if s == "debit" then Some(Debit)
    else None
  }

  /** `body` is a JSON object whose three schema fields carry exactly `b`.
      Fields outside the schema are allowed and ignored. */
  ghost predicate Describes(body: Json, b: CreateBody) {
    && body.JObject?
    && "title" in body.fields && body.fields["title"] == JString(b.title)
    && "amount" in body.fields && body.fields["amount"] == JNumber(b.amount)
    && "type" in body.fields && body.fields["type"] == JString(KindName(b.kind))
  }

  /** The create-body schema: `title` a string, `amount` a number, `type`
      one of "credit"/"debit". It accepts precisely the bodies that describe
      some create request and returns that request; otherwise it reports at
      least one issue, and every issue names the non-object body or one of
      the three schema fields. */
  function ParseCreateBody(body: Json): (r: Result<CreateBody, ValidationError>)
    ensures r.Success? ==> Describes(body, r.value)
    ensures r.Failure? ==> forall b :: !Describes(body, b)
    ensures r.Failure? ==> r.error.issues != {}
    ensures r.Failure? ==> (NotAnObject in r.error.issues <==> !body.JObject?)
    ensures r.Failure? ==> forall f :: BadField(f) in r.error.issues ==> f in CreateFields
  {
    match body
    case JObject(fields) =>
      var title := if "title" in fields && fields["title"].JString? then Some(fields["title"].s) else None;
      var amount := if "amount" in fields && fields["amount"].JNumber? then Some(fields["amount"].n) else None;
      var kind := if "type" in fields && fields["type"].JString? then ParseKind(fields["type"].s) else None;
      if title.Some? && amount.Some? && kind.Some? then
        Success(CreateBody(title.value, amount.value, kind.value))
      else
        Failure(ValidationError(
          (if title.None? then {BadField("title")} else {}) +
          (if amount.None? then {BadField("amount")} else {}) +
          (if kind.None? then {BadField("type")} else {})))
    case _ => Failure(ValidationError({NotAnObject}))
  }

  /** The JSON body a client sends for a create request. */
  function CreateBodyJson(b: CreateBody): Json {
    JObject(map["title" := JString(b.title), "amount" := JNumber(b.amount), "type" := JString(KindName(b.kind))])
  }

  /** Every create request survives being sent as JSON and validated. */
  lemma CreateBodyRoundTrip(b: CreateBody)
    ensures ParseCreateBody(CreateBodyJson(b)) == Success(b)
  {
  }

  predicate IsHexDigit(c: char) {
    '0' <= c <= '9' || 'a' <= c <= 'f' || 'A' <= c <= 'F'
  }

  /** The UUID shape: 36 characters, hyphens at offsets 8, 13, 18 and 23,
      hexadecimal digits (either case) everywhere else. */
  predicate IsUuid(s: string) {
    |s| == 36 &&
    forall i :: 0 <= i < 36 ==>
      if i == 8 || i == 13 || i == 18 || i == 23 then s[i] == '-' else IsHexDigit(s[i])
  }

  /** The get-by-id parameter schema: an `id` that is a UUID-shaped string.
      It succeeds with that id exactly when one is present and well shaped,
      and otherwise complains about `id` alone. */
  function ParseIdParams(params: map<string, string>): (r: Result<string, ValidationError>)
    ensures r.Success? <==> "id" in params && IsUuid(params["id"])
    ensures r.Success? ==> r.value == params["id"]
    ensures r.Failure? ==> r.error.issues == {BadField("id")}
  {
    if "id" in params && IsUuid(params["id"]) then Success(params["id"])
    else Failure(ValidationError({BadField("id")}))
  }
}
