/** `update_todo`: update a todo on behalf of the user the ID token names.
    The handler checks the body (422), then the token's user against the
    body's `user_name` (403), then binds the data layer with `Todo()` and
    hands the update parameters over. */
module UpdateTodo {
  import opened Values
  import opened Http

  const ParamKeys := ["id", "clear_plan", "name", "weight", "set", "user_name"]

  /** The six keys, one by one. */
  predicate Complete(body: Item)
  {
    "id" in body && "clear_plan" in body && "name" in body
    && "weight" in body && "set" in body && "user_name" in body
  }

  lemma CompleteIsHasAll(body: Item)
    ensures HasAll(body, ParamKeys) <==> Complete(body)
  {
    assert ParamKeys[0] == "id" && ParamKeys[1] == "clear_plan" && ParamKeys[2] == "name";
    assert ParamKeys[3] == "weight" && ParamKeys[4] == "set" && ParamKeys[5] == "user_name";
  }

  /** `is_exist_parameter(post_parameter)`. */
  method IsExistParameter(body: Item) returns (ok: bool)
    ensures ok <==> "id" in body && "clear_plan" in body && "name" in body
                    && "weight" in body && "set" in body && "user_name" in body
  {
    ok := CheckKeys(body, ParamKeys);
    CompleteIsHasAll(body);
  }

  /** `is_user_name_invalid(token_user_name, param_user_name)`: despite its
      name, true when the two names are the same. */
  predicate IsUserNameInvalid(tokenUserName: Value, paramUserName: Value)
    ensures IsUserNameInvalid(tokenUserName, paramUserName) <==> tokenUserName == paramUserName
  {
    tokenUserName == paramUserName
  }

  /** The fields of the body forwarded to the data layer. */
  predicate Forwarded(k: string)
  {
    k == "id" || k == "name" || k == "set" || k == "weight" || k == "clear_plan"
  }

  /** `update_params`: the five todo fields of the body, copied unchanged. */
  function UpdateParams(body: Item): (p: Item)
    requires HasAll(body, ParamKeys)
    ensures forall k :: k in p <==> Forwarded(k)
    ensures forall k :: k in p ==> k in body && p[k] == body[k]
    ensures "user_name" !in p
  {
    CompleteIsHasAll(body);
    map["id" := body["id"], "name" := body["name"], "set" := body["set"],
        "weight" := body["weight"], "clear_plan" := body["clear_plan"]]
  }

  /** Lines 110-142: the parameter check, then the token check. `Pass` carries
      the body on to the data layer. */
  function Gate(headers: Item, body: Item, verify: Value -> Claims): (d: Decision<Item>)
    ensures d == Stop(Invalid) <==> !HasAll(body, ParamKeys)
    ensures HasAll(body, ParamKeys) && "Authorization" !in headers ==> d == Stop(Failure(KeyError("Authorization")))
    ensures HasAll(body, ParamKeys) && "Authorization" in headers && UserNameOrEmpty(verify(headers["Authorization"])).Raise? ==>
              d == Stop(Failure(UserNameOrEmpty(verify(headers["Authorization"])).error))
    ensures d.Stop? && d.reply != Denied && d.reply != Invalid ==> d.reply.Failure?
    ensures d.Pass? ==> d.value == body
  {
    if !HasAll(body, ParamKeys) then Stop(Invalid)
    else if "Authorization" !in headers then Stop(Failure(KeyError("Authorization")))
    else match UserNameOrEmpty(verify(headers["Authorization"]))
      case Raise(e) => Stop(Failure(e))
      case Ok(userName) =>
        CompleteIsHasAll(body);
        if userName == Str("") || !IsUserNameInvalid(userName, body["user_name"]) then Stop(Denied)
        else Pass(body)
  }

  /** The request passes both checks: every parameter is there and the token
      names the body's `user_name`, which is not empty. */
  predicate Admitted(headers: Item, body: Item, verify: Value -> Claims)
  {
    HasAll(body, ParamKeys) && "Authorization" in headers
    && var name := UserNameOrEmpty(verify(headers["Authorization"]));
       name.Ok? && name.value != Str("") && "user_name" in body && name.value == body["user_name"]
  }

  /** Once the parameters are complete and the token verifies, the request is
      denied exactly when the token's user is empty or differs from the body's. */
  lemma DeniedUnlessSameUser(headers: Item, body: Item, verify: Value -> Claims)
    requires HasAll(body, ParamKeys) && "Authorization" in headers
    requires UserNameOrEmpty(verify(headers["Authorization"])).Ok?
    ensures Gate(headers, body, verify) == Stop(Denied) <==> !Admitted(headers, body, verify)
    ensures Gate(headers, body, verify).Pass? <==> Admitted(headers, body, verify)
  {
    CompleteIsHasAll(body);
  }

  /** `lambda_handler(event, context)` as written: line 149 calls `Todo()`
      without its `env_str` argument, which raises `TypeError` in either
      environment, so an admitted request never reaches the update. */
  function LambdaHandler(headers: Item, body: Item, verify: Value -> Claims): (r: Reply<Item>)
    ensures Gate(headers, body, verify).Stop? ==> r == Gate(headers, body, verify).reply
    ensures !r.Success?
  {
    match Gate(headers, body, verify)
    case Stop(reply) => reply
    case Pass(_) => Failure(TypeError)   // `Todo()`
  }

  /** Every admitted update answers 500. */
  lemma AdmittedUpdateFails(headers: Item, body: Item, verify: Value -> Claims)
    requires Admitted(headers, body, verify)
    ensures LambdaHandler(headers, body, verify) == Failure(TypeError)
    ensures StatusCode(LambdaHandler(headers, body, verify)) == 500
  {
    DeniedUnlessSameUser(headers, body, verify);
  }

  /** A concrete request the handler should accept: complete parameters and a
      token naming the body's user. It is answered with 500. */
  lemma AdmittedUpdateFailsExample()
    ensures var body := map["id" := Int(1), "clear_plan" := Str("2020-10-01"), "name" := Str("squat"),
                            "weight" := Int(60), "set" := Int(3), "user_name" := Str("alice")];
            var verify := (t: Value) => Verified(map[UserNameClaim := Str("alice")]);
            Admitted(map["Authorization" := Str("token")], body, verify)
            && LambdaHandler(map["Authorization" := Str("token")], body, verify) == Failure(TypeError)
  {
    var body := map["id" := Int(1), "clear_plan" := Str("2020-10-01"), "name" := Str("squat"),
                    "weight" := Int(60), "set" := Int(3), "user_name" := Str("alice")];
    var verify := (t: Value) => Verified(map[UserNameClaim := Str("alice")]);
    assert HasAll(body, ParamKeys);
    AdmittedUpdateFails(map["Authorization" := Str("token")], body, verify);
  }

  /** The handler as evidently intended: the data layer is bound like in the
      other handlers and `update` (the data layer's update call, which the
      layer does not define) receives `update_params`. */
  function LambdaHandlerIntended(headers: Item, body: Item, verify: Value -> Claims,
                                 update: Item -> Result<Item>): (r: Reply<Item>)
    ensures Gate(headers, body, verify).Stop? ==> r == Gate(headers, body, verify).reply
    ensures Admitted(headers, body, verify) ==>
              r == match update(UpdateParams(body)) case Ok(x) => Success(x) case Raise(e) => Failure(e)
  {
    match Gate(headers, body, verify)
    case Stop(reply) => reply
    case Pass(b) =>
      match update(UpdateParams(b))
      case Ok(x) => Success(x)
      case Raise(e) => Failure(e)
  }

  /** In the intended handler an admitted request reaches the update, with
      exactly the five todo fields and never the body's `user_name`. */
  lemma IntendedForwardsUpdate(headers: Item, body: Item, verify: Value -> Claims, update: Item -> Result<Item>)
    requires Admitted(headers, body, verify)
    requires update(UpdateParams(body)).Ok?
    ensures LambdaHandlerIntended(headers, body, verify, update) == Success(update(UpdateParams(body)).value)
    ensures forall k :: k in UpdateParams(body) <==> Forwarded(k)
  {
    DeniedUnlessSameUser(headers, body, verify);
  }
}
