/** `add_todo`: register a new todo for the user the access token belongs to.
    The handler asks the identity provider who owns the access token (403 when
    it is someone else), then checks the body (422), binds the data layer,
    builds the todo record and stores it with `put_todo`. */
module AddTodo {
  import opened Values
  import opened Dates
  import opened Http
  import opened DynamodbLayer

  const ParamKeys := ["user_name", "name", "weight", "set", "clear_plan"]

  predicate Complete(body: Item)
  {
    "user_name" in body && "name" in body && "weight" in body && "set" in body && "clear_plan" in body
  }

  lemma CompleteIsHasAll(body: Item)
    ensures HasAll(body, ParamKeys) <==> Complete(body)
  {
    assert ParamKeys[0] == "user_name" && ParamKeys[1] == "name" && ParamKeys[2] == "weight";
    assert ParamKeys[3] == "set" && ParamKeys[4] == "clear_plan";
  }

  /** `is_exist_parameter(post_parameter)`; `access_token` is not among the keys. */
  method IsExistParameter(body: Item) returns (ok: bool)
    ensures ok <==> "user_name" in body && "name" in body && "weight" in body
                    && "set" in body && "clear_plan" in body
  {
    ok := CheckKeys(body, ParamKeys);
    CompleteIsHasAll(body);
  }

  /** `auth_request_user_is_valid(user_name, token)`. `getUser` is the identity
      provider's `get_user(AccessToken = token)`; `None` stands for the
      `ClientError` it raises for a token it does not accept. */
  function AuthRequestUserIsValid(userName: Value, token: Value, getUser: Value -> Option<Item>): (r: Result<bool>)
    ensures getUser(token).None? ==> r == Raise(ClientError)
    ensures getUser(token).Some? && "Username" !in getUser(token).value ==> r == Raise(KeyError("Username"))
    ensures r.Ok? <==> getUser(token).Some? && "Username" in getUser(token).value
    ensures r == Ok(true) <==> getUser(token).Some? && "Username" in getUser(token).value
                               && userName == getUser(token).value["Username"]
  {
    match getUser(token)
    case None => Raise(ClientError)
    case Some(user) =>
      if "Username" !in user then Raise(KeyError("Username"))
      else Ok(userName == user["Username"])
  }

  /** The access token the handler presents: the body's, or `""` when it has none. */
  function AccessToken(body: Item): Value
  {
    if "access_token" in body then body["access_token"] else Str("")
  }

  /** The `todo` record of lines 100-107: the five fields of the body, with
      `weight` and `set` passed through `int`, and `is_cleared` false. */
  function TodoRecord(body: Item): (r: Result<Item>)
    requires Complete(body)
    ensures r.Ok? <==> ToInt(body["weight"]).Ok? && ToInt(body["set"]).Ok?
    ensures ToInt(body["weight"]).Raise? ==> r == Raise(ToInt(body["weight"]).error)
    ensures r.Ok? ==> r.value.Keys == {"user_name", "name", "weight", "set", "clear_plan", "is_cleared"}
    ensures r.Ok? ==> r.value["user_name"] == body["user_name"] && r.value["name"] == body["name"]
                      && r.value["clear_plan"] == body["clear_plan"]
    ensures r.Ok? ==> r.value["weight"] == Int(ToInt(body["weight"]).value)
                      && r.value["set"] == Int(ToInt(body["set"]).value)
    ensures r.Ok? ==> r.value["is_cleared"] == Bool(false)
  {
    match ToInt(body["weight"])
    case Raise(e) => Raise(e)
    case Ok(weight) =>
      match ToInt(body["set"])
      case Raise(e) => Raise(e)
      case Ok(sets) =>
        Ok(map["user_name" := body["user_name"], "name" := body["name"], "weight" := Int(weight),
               "set" := Int(sets), "clear_plan" := body["clear_plan"], "is_cleared" := Bool(false)])
  }

  /** Lines 62-107 up to the data layer call: authorisation first, then the
      parameter check, then binding the data layer, then the record.
      `bound` tells whether binding the data layer succeeds. */
  function Admit(body: Item, getUser: Value -> Option<Item>, bound: bool): (d: Decision<Item>)
    ensures "user_name" !in body ==> d == Stop(Failure(KeyError("user_name")))
    ensures "user_name" in body ==>
              (d == Stop(Denied) <==> AuthRequestUserIsValid(body["user_name"], AccessToken(body), getUser) == Ok(false))
    ensures d == Stop(Invalid) <==> ("user_name" in body
              && AuthRequestUserIsValid(body["user_name"], AccessToken(body), getUser) == Ok(true)
              && !Complete(body))
    ensures d.Pass? <==> ("user_name" in body
              && AuthRequestUserIsValid(body["user_name"], AccessToken(body), getUser) == Ok(true)
              && Complete(body) && bound && TodoRecord(body).Ok?)
    ensures d.Pass? ==> Complete(body) && d.value == TodoRecord(body).value
    ensures "user_name" in body && AuthRequestUserIsValid(body["user_name"], AccessToken(body), getUser).Raise? ==>
              d == Stop(Failure(AuthRequestUserIsValid(body["user_name"], AccessToken(body), getUser).error))
    ensures ("user_name" in body && AuthRequestUserIsValid(body["user_name"], AccessToken(body), getUser) == Ok(true) && Complete(body)
             && !bound) ==> d == Stop(Failure(TypeError))
    ensures ("user_name" in body && AuthRequestUserIsValid(body["user_name"], AccessToken(body), getUser) == Ok(true) && Complete(body)
             && bound && TodoRecord(body).Raise?) ==> d == Stop(Failure(TodoRecord(body).error))
    ensures d.Stop? && d.reply != Denied && d.reply != Invalid ==> d.reply.Failure?
  {
    CompleteIsHasAll(body);
    if "user_name" !in body then Stop(Failure(KeyError("user_name")))
    else match AuthRequestUserIsValid(body["user_name"], AccessToken(body), getUser)
      case Raise(e) => Stop(Failure(e))
      case Ok(valid) =>
        if !valid then Stop(Denied)
        else if !HasAll(body, ParamKeys) then Stop(Invalid)
        else if !bound then Stop(Failure(TypeError))
        else match TodoRecord(body)
          case Raise(e) => Stop(Failure(e))
          case Ok(todo) => Pass(todo)
  }

  /** A body without `access_token` is treated as one whose token is `""`. */
  lemma MissingAccessTokenIsEmpty(body: Item, getUser: Value -> Option<Item>, bound: bool)
    requires "access_token" !in body
    ensures Admit(body, getUser, bound) == Admit(body["access_token" := Str("")], getUser, bound)
  {
    var body' := body["access_token" := Str("")];
    CompleteIsHasAll(body);
    CompleteIsHasAll(body');
    assert AccessToken(body) == AccessToken(body');
    if Complete(body) {
      assert TodoRecord(body) == TodoRecord(body');
    }
  }

  /** The stored record as answered (lines 109-110): both timestamps
      converted back to date strings, every other field as stored. */
  function Echo(stored: Item, codec: DateCodec): (r: Result<Item>)
    ensures "clear_plan" !in stored ==> r == Raise(KeyError("clear_plan"))
    ensures "clear_plan" in stored && DecodeDate(codec, stored["clear_plan"]).Raise? ==>
              r == Raise(DecodeDate(codec, stored["clear_plan"]).error)
    ensures "clear_plan" in stored && DecodeDate(codec, stored["clear_plan"]).Ok? && "created_at" !in stored ==>
              r == Raise(KeyError("created_at"))
    ensures ("clear_plan" in stored && DecodeDate(codec, stored["clear_plan"]).Ok?
             && "created_at" in stored && DecodeDate(codec, stored["created_at"]).Raise?) ==>
              r == Raise(DecodeDate(codec, stored["created_at"]).error)
    ensures r.Ok? <==> ("clear_plan" in stored && DecodeDate(codec, stored["clear_plan"]).Ok?
                        && "created_at" in stored && DecodeDate(codec, stored["created_at"]).Ok?)
    ensures r.Ok? ==> r.value.Keys == stored.Keys
                      && r.value["clear_plan"] == Str(DecodeDate(codec, stored["clear_plan"]).value)
                      && r.value["created_at"] == Str(DecodeDate(codec, stored["created_at"]).value)
                      && (forall k :: k in stored && k != "clear_plan" && k != "created_at" ==> r.value[k] == stored[k])
  {
    if "clear_plan" !in stored then Raise(KeyError("clear_plan"))
    else match DecodeDate(codec, stored["clear_plan"])
      case Raise(e) => Raise(e)
      case Ok(plan) =>
        if "created_at" !in stored then Raise(KeyError("created_at"))
        else match DecodeDate(codec, stored["created_at"])
          case Raise(e) => Raise(e)
          case Ok(created) => Ok(stored["clear_plan" := Str(plan)]["created_at" := Str(created)])
  }

  /** What registering `record` does (lines 108-121), from the tables and
      counter before to those after and the answer: the counter is raised
      when it accepts the call; the row is stored under the new id exactly
      when the counter, the conversion of the dates and the put succeed, and
      nothing is stored otherwise; the answer is a success exactly when,
      beyond that, both dates convert back, and it then is the stored record
      as answered. A conversion that fails after the put leaves the row
      stored and answers 500. */
  predicate Registered(before: map<Value, Item>, after: map<Value, Item>,
                       countBefore: map<string, int>, countAfter: map<string, int>,
                       record: Item, codec: DateCodec, today: string, counterUp: bool, putUp: bool,
                       r: Reply<Item>)
  {
    && (counterUp ==> countAfter == Countup(countBefore))
    && (!counterUp ==> countAfter == countBefore && r == Failure(ClientError))
    && (r.Success? || r.Failure?)
    && var id := Current(countAfter);
       var stored := Stamp(record, id, codec, today);
       && (counterUp && putUp && stored.Ok? ==> after == before[Int(id) := stored.value])
       && (!(counterUp && putUp && stored.Ok?) ==> after == before)
       && (r.Success? <==> counterUp && putUp && stored.Ok? && Echo(stored.value, codec).Ok?)
       && (r.Success? ==> r.item == Echo(stored.value, codec).value)
  }

  /** Lines 108-121: store the record with `put_todo`, which writes the new id,
      the converted `clear_plan` and `created_at` into it, then answer with
      that record, its two dates converted back to date strings. */
  method Register(db: Todo, record: Item, codec: DateCodec, today: string, counterUp: bool, putUp: bool)
    returns (r: Reply<Item>)
    requires db.Valid()
    modifies db, db.atomicCounter
    ensures db.Valid()
    ensures counterUp ==> db.atomicCounter.numbers == Countup(old(db.atomicCounter.numbers))
    ensures !counterUp ==> r == Failure(ClientError) && db.atomicCounter.numbers == old(db.atomicCounter.numbers)
    ensures var id := Current(db.atomicCounter.numbers);
            var stored := Stamp(record, id, codec, today);
            (r.Success? ==> counterUp && putUp && stored.Ok?
                            && db.items == old(db.items)[Int(id) := stored.value]
                            && r.item.Keys == record.Keys + {"id", "clear_plan", "created_at"}
                            && r.item["id"] == Int(id)
                            && (forall k :: k in record && !Stamped(k) ==> r.item[k] == record[k])
                            && DecodeDate(codec, stored.value["clear_plan"]).Ok?
                            && r.item["clear_plan"] == Str(DecodeDate(codec, stored.value["clear_plan"]).value)
                            && DecodeDate(codec, stored.value["created_at"]).Ok?
                            && r.item["created_at"] == Str(DecodeDate(codec, stored.value["created_at"]).value))
            && (counterUp && putUp && stored.Ok? ==> db.items == old(db.items)[Int(id) := stored.value])
    ensures !(counterUp && putUp && Stamp(record, Current(db.atomicCounter.numbers), codec, today).Ok?) ==>
              db.items == old(db.items) && r.Failure?
    ensures Registered(old(db.items), db.items, old(db.atomicCounter.numbers), db.atomicCounter.numbers,
                       record, codec, today, counterUp, putUp, r)
  {
    var todo := new Dict(record);
    var put := db.PutTodo(todo, codec, today, counterUp, putUp);
    if put.Raise? {
      return Failure(put.error);
    }
    var plan := DecodeDate(codec, todo.entries["clear_plan"]);
    if plan.Raise? {
      return Failure(plan.error);
    }
    var created := DecodeDate(codec, todo.entries["created_at"]);
    if created.Raise? {
      return Failure(created.error);
    }
    r := Success(todo.entries["clear_plan" := Str(plan.value)]["created_at" := Str(created.value)]);
  }

  /** `lambda_handler(event, context)` as written, with `samLocal` telling
      whether `AWS_SAM_LOCAL` is set. */
  method LambdaHandler(db: Todo, body: Item, getUser: Value -> Option<Item>, samLocal: bool,
                       codec: DateCodec, today: string, counterUp: bool, putUp: bool)
    returns (r: Reply<Item>)
    requires db.Valid()
    modifies db, db.atomicCounter
    ensures db.Valid()
    ensures Admit(body, getUser, Binds(samLocal)).Stop? ==>
              r == Admit(body, getUser, Binds(samLocal)).reply
              && db.items == old(db.items) && db.atomicCounter.numbers == old(db.atomicCounter.numbers)
    ensures Admit(body, getUser, Binds(samLocal)).Pass? ==>
              Registered(old(db.items), db.items, old(db.atomicCounter.numbers), db.atomicCounter.numbers,
                         Admit(body, getUser, Binds(samLocal)).value, codec, today, counterUp, putUp, r)
  {
    var d := Admit(body, getUser, Binds(samLocal));
    if d.Stop? {
      return d.reply;
    }
    r := Register(db, d.value, codec, today, counterUp, putUp);
  }

  /** In production every request that passes both checks and carries
      well-formed numbers is answered with 500, and nothing is stored. */
  lemma ProductionNeverRegisters(body: Item, getUser: Value -> Option<Item>)
    requires "user_name" in body && AuthRequestUserIsValid(body["user_name"], AccessToken(body), getUser) == Ok(true)
    requires Complete(body) && TodoRecord(body).Ok?
    ensures Admit(body, getUser, Binds(false)) == Stop(Failure(TypeError))
    ensures Admit(body, getUser, true) == Pass(TodoRecord(body).value)
  {
  }

  /** The handler as evidently intended: the data layer is bound in both
      environments (`Todo("prod")` in production). */
  method LambdaHandlerFixed(db: Todo, body: Item, getUser: Value -> Option<Item>,
                            codec: DateCodec, today: string, counterUp: bool, putUp: bool)
    returns (r: Reply<Item>)
    requires db.Valid()
    modifies db, db.atomicCounter
    ensures db.Valid()
    ensures Admit(body, getUser, true).Stop? ==>
              r == Admit(body, getUser, true).reply
              && db.items == old(db.items) && db.atomicCounter.numbers == old(db.atomicCounter.numbers)
    ensures Admit(body, getUser, true).Pass? && counterUp && putUp ==>
              var id := Current(db.atomicCounter.numbers);
              var stored := Stamp(TodoRecord(body).value, id, codec, today);
              stored.Ok? ==> db.items == old(db.items)[Int(id) := stored.value]
                             && stored.value["user_name"] == body["user_name"]
                             && stored.value["is_cleared"] == Bool(false)
    ensures Admit(body, getUser, true).Pass? ==>
              Registered(old(db.items), db.items, old(db.atomicCounter.numbers), db.atomicCounter.numbers,
                         Admit(body, getUser, true).value, codec, today, counterUp, putUp, r)
  {
    var d := Admit(body, getUser, true);
    if d.Stop? {
      return d.reply;
    }
    r := Register(db, d.value, codec, today, counterUp, putUp);
  }
}
