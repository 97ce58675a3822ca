/** `complete_todo`: mark a todo cleared. The handler reads the user from the
    ID token (403 when there is none), checks the body (422), binds the data
    layer, and asks it to set the clear date and comment of the todo. */
module CompleteTodo {
  import opened Values
  import opened Dates
  import opened Http
  import opened DynamodbLayer

  const ParamKeys := ["id", "clear_date"]

  lemma ParamKeysPresent(body: Item)
    ensures HasAll(body, ParamKeys) <==> "id" in body && "clear_date" in body
  {
    assert ParamKeys[0] == "id" && ParamKeys[1] == "clear_date";
  }

  /** `is_exist_parameter(post_parameter)`; `comment` is not among the keys. */
  method IsExistParameter(body: Item) returns (ok: bool)
    ensures ok <==> "id" in body && "clear_date" in body
  {
    ok := CheckKeys(body, ParamKeys);
    ParamKeysPresent(body);
  }

  /** `complete_info`: the todo id as an `int`, the clear date and the comment
      of the body, read in that order. */
  function CompleteInfo(body: Item): (r: Result<Item>)
    requires "id" in body && "clear_date" in body
    ensures ToInt(body["id"]).Raise? ==> r == Raise(ToInt(body["id"]).error)
    ensures ToInt(body["id"]).Ok? && "comment" !in body ==> r == Raise(KeyError("comment"))
    ensures r.Ok? <==> ToInt(body["id"]).Ok? && "comment" in body
    ensures r.Ok? ==> r.value.Keys == {"id", "clear_date", "comment"}
                      && r.value["id"] == Int(ToInt(body["id"]).value)
                      && r.value["clear_date"] == body["clear_date"]
                      && r.value["comment"] == body["comment"]
  {
    match ToInt(body["id"])
    case Raise(e) => Raise(e)
    case Ok(id) =>
      if "comment" !in body then Raise(KeyError("comment"))
      else Ok(map["id" := Int(id), "clear_date" := body["clear_date"], "comment" := body["comment"]])
  }

  /** Lines 51-93 up to the data layer call: the token first (403 for an empty
      user name), then the parameter check, then binding the data layer, then
      `complete_info`. `bound` tells whether binding the data layer succeeds. */
  function Admit(headers: Item, body: Item, verify: Value -> Claims, bound: bool): (d: Decision<Item>)
    ensures "Authorization" !in headers ==> d == Stop(Failure(KeyError("Authorization")))
    ensures d == Stop(Denied) <==> ("Authorization" in headers
              && UserNameOrEmpty(verify(headers["Authorization"])) == Ok(Str("")))
    ensures d == Stop(Invalid) <==> ("Authorization" in headers
              && UserNameOrEmpty(verify(headers["Authorization"])).Ok?
              && UserNameOrEmpty(verify(headers["Authorization"])) != Ok(Str(""))
              && !("id" in body && "clear_date" in body))
    ensures d.Pass? <==> ("Authorization" in headers
              && UserNameOrEmpty(verify(headers["Authorization"])).Ok?
              && UserNameOrEmpty(verify(headers["Authorization"])) != Ok(Str(""))
              && "id" in body && "clear_date" in body && bound && CompleteInfo(body).Ok?)
    ensures d.Pass? ==> "id" in body && "clear_date" in body && d.value == CompleteInfo(body).value
    ensures "Authorization" in headers && UserNameOrEmpty(verify(headers["Authorization"])).Raise? ==>
              d == Stop(Failure(UserNameOrEmpty(verify(headers["Authorization"])).error))
    ensures ("Authorization" in headers && UserNameOrEmpty(verify(headers["Authorization"])).Ok? && UserNameOrEmpty(verify(headers["Authorization"])) != Ok(Str(""))
             && "id" in body && "clear_date" in body && !bound) ==> d == Stop(Failure(TypeError))
    ensures ("Authorization" in headers && UserNameOrEmpty(verify(headers["Authorization"])).Ok? && UserNameOrEmpty(verify(headers["Authorization"])) != Ok(Str(""))
             && "id" in body && "clear_date" in body && bound && CompleteInfo(body).Raise?) ==>
              d == Stop(Failure(CompleteInfo(body).error))
    ensures ("Authorization" in headers && UserNameOrEmpty(verify(headers["Authorization"])).Ok? && UserNameOrEmpty(verify(headers["Authorization"])) != Ok(Str(""))
             && "id" in body && "clear_date" in body && bound && ToInt(body["id"]).Ok? && "comment" !in body) ==>
              d == Stop(Failure(KeyError("comment")))
    ensures d.Stop? && d.reply != Denied && d.reply != Invalid ==> d.reply.Failure?
  {
    ParamKeysPresent(body);
    if "Authorization" !in headers then Stop(Failure(KeyError("Authorization")))
    else match UserNameOrEmpty(verify(headers["Authorization"]))
      case Raise(e) => Stop(Failure(e))
      case Ok(userName) =>
        if userName == Str("") then Stop(Denied)
        else if !HasAll(body, ParamKeys) then Stop(Invalid)
        else if !bound then Stop(Failure(TypeError))
        else match CompleteInfo(body)
          case Raise(e) => Stop(Failure(e))
          case Ok(info) => Pass(info)
  }

  /** A token without a user name is refused before the body is looked at:
      the answer is 403 whatever the body holds. */
  lemma DeniedBeforeValidation(headers: Item, body1: Item, body2: Item, verify: Value -> Claims, bound: bool)
    requires "Authorization" in headers
    requires UserNameOrEmpty(verify(headers["Authorization"])) == Ok(Str(""))
    ensures Admit(headers, body1, verify, bound) == Admit(headers, body2, verify, bound) == Stop(Denied)
  {
  }

  /** Lines 95-102: ask the data layer to complete the todo, then answer with
      the request's id and the clear date the update reports back. */
  method Complete(db: Todo, info: Item, codec: DateCodec, up: bool) returns (r: Reply<Item>)
    requires db.Valid()
    modifies db
    ensures db.Valid()
    ensures r.Success? <==> up && Completion(info, codec).Ok?
    ensures r.Success? ==> var (key, attrs) := Completion(info, codec).value;
              db.items == old(db.items)[key := Upsert(old(db.items), key, attrs)]
              && r.item == map["id" := info["id"], "clear_date" := attrs["clear_date"]]
    ensures !r.Success? ==> db.items == old(db.items) && r.Failure?
  {
    var response := db.CompleteTodo(info, codec, up);
    if response.Raise? {
      return Failure(response.error);
    }
    var attrs := response.value;
    r := Success(map["id" := info["id"], "clear_date" := attrs["clear_date"]]);
  }

  /** `lambda_handler(event, context)` as written, with `samLocal` telling
      whether `AWS_SAM_LOCAL` is set. */
  method LambdaHandler(db: Todo, headers: Item, body: Item, verify: Value -> Claims, samLocal: bool,
                       codec: DateCodec, up: bool) returns (r: Reply<Item>)
    requires db.Valid()
    modifies db
    ensures db.Valid()
    ensures Admit(headers, body, verify, Binds(samLocal)).Stop? ==>
              r == Admit(headers, body, verify, Binds(samLocal)).reply && db.items == old(db.items)
    ensures Admit(headers, body, verify, Binds(samLocal)).Pass? ==>
              var info := Admit(headers, body, verify, Binds(samLocal)).value;
              (r.Success? <==> up && Completion(info, codec).Ok?)
              && (r.Success? ==> var (key, attrs) := Completion(info, codec).value;
                                 db.items == old(db.items)[key := Upsert(old(db.items), key, attrs)]
                                 && r.item == map["id" := info["id"], "clear_date" := attrs["clear_date"]])
              && (!r.Success? ==> db.items == old(db.items) && r.Failure?)
  {
    var d := Admit(headers, body, verify, Binds(samLocal));
    if d.Stop? {
      return d.reply;
    }
    r := Complete(db, d.value, codec, up);
  }

  /** In production every request with a user name and complete, well-formed
      parameters is answered with 500, and no todo is completed. */
  lemma ProductionNeverCompletes(headers: Item, body: Item, verify: Value -> Claims)
    requires "Authorization" in headers
    requires UserNameOrEmpty(verify(headers["Authorization"])).Ok?
    requires UserNameOrEmpty(verify(headers["Authorization"])) != Ok(Str(""))
    requires "id" in body && "clear_date" in body && CompleteInfo(body).Ok?
    ensures Admit(headers, body, verify, Binds(false)) == Stop(Failure(TypeError))
    ensures Admit(headers, body, verify, true) == Pass(CompleteInfo(body).value)
  {
  }

  /** The handler as evidently intended: the data layer is bound in both
      environments (`Todo("prod")` in production). */
  method LambdaHandlerFixed(db: Todo, headers: Item, body: Item, verify: Value -> Claims,
                            codec: DateCodec, up: bool) returns (r: Reply<Item>)
    requires db.Valid()
    modifies db
    ensures db.Valid()
    ensures Admit(headers, body, verify, true).Stop? ==>
              r == Admit(headers, body, verify, true).reply && db.items == old(db.items)
    ensures Admit(headers, body, verify, true).Pass? ==>
              var info := Admit(headers, body, verify, true).value;
              (r.Success? <==> up && Completion(info, codec).Ok?)
              && (r.Success? ==> "id" in r.item && r.item["id"] == Int(ToInt(body["id"]).value)
                                 && var (key, attrs) := Completion(info, codec).value;
                                    db.items == old(db.items)[key := Upsert(old(db.items), key, attrs)])
              && (!r.Success? ==> db.items == old(db.items) && r.Failure?)
  {
    var d := Admit(headers, body, verify, true);
    if d.Stop? {
      return d.reply;
    }
    r := Complete(db, d.value, codec, up);
  }
}
