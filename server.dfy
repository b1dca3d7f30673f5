/** `middleware`, the pre-handler of the TypeScript server's `POST /userdata`: an ordered
    chain of guards over the query, the headers and the JSON body, each of which answers
    with an error status; a request that clears them all gets no answer here and passes on
    to the handler. */
module Server {
  import opened Wrappers

  /** The JavaScript values a parsed request can hold. Numbers are reals; NaN is not
      modelled. */
  datatype JsValue =
    | Undefined
    | Null
    | Bool(b: bool)
    | Num(x: real)
    | Str(s: string)
    | Arr(items: seq<JsValue>)
    | Obj(fields: map<string, JsValue>)

  /** `typeof v`; null and arrays are "object". */
  function TypeOf(v: JsValue): string
  {
    match v
    case Undefined => "undefined"
    case Null => "object"
    case Bool(_) => "boolean"
    case Num(_) => "number"
    case Str(_) => "string"
    case Arr(_) => "object"
    case Obj(_) => "object"
  }

  /** `!!v`: false for undefined, null, false, 0 and the empty string. */
  predicate Truthy(v: JsValue)
  {
    match v
    case Undefined => false
    case Null => false
    case Bool(b) => b
    case Num(x) => x != 0.0
    case Str(s) => |s| > 0
    case Arr(_) => true
    case Obj(_) => true
  }

  /** `v == null`: loose equality with null holds for null and undefined only. */
  predicate LooseNull(v: JsValue)
  {
    v == Undefined || v == Null
  }

  /** Destructuring a field out of an object: a missing field, and every field of an array,
      is undefined. */
  function Field(v: JsValue, name: string): JsValue
    requires v.Obj? || v.Arr?
  {
    if v.Obj? && name in v.fields then v.fields[name] else Undefined
  }

  /** What `middleware` does with a request: replies with a status and an error text,
      throws (destructuring `null`), or lets the request through. */
  datatype Outcome = Reply(status: int, error: string) | Throws | Proceed

  const RequiredFields: string :=
    "The following are required: betaTester, metabits, dino_rank, prestige_rank, singularity_speedrun_time, all_sharks_obtained, all_hidden_achievements_obtained"

  /** The body names every progress field as missing: the three booleans are null or
      undefined and the four numbers are falsy, 0 included. */
  predicate AllMissing(body: JsValue)
    requires body.Obj? || body.Arr?
  {
    && LooseNull(Field(body, "betaTester"))
    && !Truthy(Field(body, "metabits"))
    && !Truthy(Field(body, "dino_rank"))
    && !Truthy(Field(body, "prestige_rank"))
    && !Truthy(Field(body, "singularity_speedrun_time"))
    && LooseNull(Field(body, "all_sharks_obtained"))
    && LooseNull(Field(body, "all_hidden_achievements_obtained"))
  }

  /** `middleware(req, rep)` for the query's `playerId`, the `Authorization` and
      `authorization` headers (absent is None), the body, and the `USERDATA_AUTH`
      environment variable (unset is None). Loose `!=` between two values that are each a
      string or undefined is plain inequality of the options. */
  function Middleware(body: JsValue, playerId: JsValue, authUpper: Option<string>, authLower: Option<string>,
                      secret: Option<string>): (r: Outcome)
    ensures r == Reply(422, "Malformed request") <==> TypeOf(body) != "object"
    ensures r == Throws <==> body == Null
    ensures r == Reply(403, "Missing playerId") <==> (body.Obj? || body.Arr?) && !Truthy(playerId)
    ensures r == Reply(403, "Invalid Authorization header") <==>
              (body.Obj? || body.Arr?) && Truthy(playerId) && authUpper != secret && authLower != secret
    ensures r == Reply(403, "Missing playerToken") <==>
              (body.Obj? || body.Arr?) && Truthy(playerId) && (authUpper == secret || authLower == secret)
              && !Truthy(Field(body, "playerToken"))
    ensures r == Reply(400, RequiredFields) <==>
              (body.Obj? || body.Arr?) && Truthy(playerId) && (authUpper == secret || authLower == secret)
              && Truthy(Field(body, "playerToken")) && AllMissing(body)
    ensures r == Proceed <==>
              (body.Obj? || body.Arr?) && Truthy(playerId) && (authUpper == secret || authLower == secret)
              && Truthy(Field(body, "playerToken")) && !AllMissing(body)
  {
    if TypeOf(body) != "object" then Reply(422, "Malformed request")
    else if body == Null then Throws
    else if !Truthy(playerId) then Reply(403, "Missing playerId")
    else if authUpper != secret && authLower != secret then Reply(403, "Invalid Authorization header")
    else if !Truthy(Field(body, "playerToken")) then Reply(403, "Missing playerToken")
    else if AllMissing(body) then Reply(400, RequiredFields)
    else Proceed
  }

  /** The body's type is checked before anything else: whatever the id and the headers, a
      body that is not an object gets 422. */
  lemma MalformedFirst(body: JsValue, playerId: JsValue, authUpper: Option<string>, authLower: Option<string>,
                       secret: Option<string>, otherId: JsValue, otherUpper: Option<string>, otherLower: Option<string>)
    requires TypeOf(body) != "object"
    ensures Middleware(body, playerId, authUpper, authLower, secret)
            == Middleware(body, otherId, otherUpper, otherLower, secret)
            == Reply(422, "Malformed request")
  {
  }

  /** The replies the guards can give, all error statuses. */
  lemma RepliesAreErrors(body: JsValue, playerId: JsValue, authUpper: Option<string>, authLower: Option<string>,
                         secret: Option<string>)
    ensures var r := Middleware(body, playerId, authUpper, authLower, secret);
      r.Reply? ==> r.status in {400, 403, 422}
  {
  }

  /** A progress of all zeros, sent without the booleans, is refused as if every field were
      missing: 0 counts as absent. */
  lemma ZeroProgressRefused(playerId: JsValue, token: string, secret: string)
    requires Truthy(playerId) && |token| > 0
    ensures var body := Obj(map["playerToken" := Str(token), "metabits" := Num(0.0), "dino_rank" := Num(0.0),
                                "prestige_rank" := Num(0.0), "singularity_speedrun_time" := Num(0.0)]);
      Middleware(body, playerId, Some(secret), None, Some(secret)) == Reply(400, RequiredFields)
  {
  }

  /** A false beta flag alone is enough to pass: `false == null` does not hold. */
  lemma FalseBetaPasses(playerId: JsValue, token: string, secret: string)
    requires Truthy(playerId) && |token| > 0
    ensures var body := Obj(map["playerToken" := Str(token), "betaTester" := Bool(false)]);
      Middleware(body, playerId, None, Some(secret), Some(secret)) == Proceed
  {
  }

  /** With `USERDATA_AUTH` unset, a request that sends neither header passes the
      authorization check. */
  lemma UnsetSecretAdmitsNoHeader(body: JsValue, playerId: JsValue)
    requires (body.Obj? || body.Arr?) && Truthy(playerId)
    ensures Middleware(body, playerId, None, None, None) != Reply(403, "Invalid Authorization header")
  {
  }
}
