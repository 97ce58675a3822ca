/** `relation`: record that the token's user follows another user. The
    handler reads the follower from the ID token (403 when there is none),
    checks the body for `following_name` (422), and hands the pair to the
    follow-relation repository. */
module Relation {
  import opened Values
  import opened Http

  const ParamKeys := ["following_name"]

  /** `is_exist_parameter(post_parameter)`. */
  method IsExistParameter(body: Item) returns (ok: bool)
    ensures ok <==> "following_name" in body
  {
    ok := CheckKeys(body, ParamKeys);
    assert ParamKeys[0] == "following_name";
  }

  /** `params`: the followed user from the body and the follower from the
      token, never from the body. */
  function Params(body: Item, follower: Value): (p: Item)
    requires "following_name" in body
    ensures p.Keys == {"following_name", "follower_name"}
    ensures p["following_name"] == body["following_name"] && p["follower_name"] == follower
  {
    map["following_name" := body["following_name"], "follower_name" := follower]
  }

  /** Lines 72-108 once the follower is known: 403 for a falsy follower, then
      422, then the repository call `follow` (`put_follow_relation`). */
  function Respond(body: Item, follower: Result<Value>, follow: Item -> Result<Item>): (r: Reply<Item>)
    ensures follower.Raise? ==> r == Failure(follower.error)
    ensures follower.Ok? && !Truthy(follower.value) ==> r == Denied
    ensures r == Invalid <==> follower.Ok? && Truthy(follower.value) && "following_name" !in body
    ensures follower.Ok? && Truthy(follower.value) && "following_name" in body ==>
              r == match follow(Params(body, follower.value)) case Ok(x) => Success(x) case Raise(e) => Failure(e)
  {
    match follower
    case Raise(e) => Failure(e)
    case Ok(name) =>
      if !Truthy(name) then Denied
      else if !HasAll(body, ParamKeys) then
        assert ParamKeys[0] == "following_name";
        Invalid
      else
        assert ParamKeys[0] == "following_name";
        match follow(Params(body, name))
        case Ok(x) => Success(x)
        case Raise(e) => Failure(e)
  }

  /** `lambda_handler(event, context)` as written. Line 72 indexes the
      `Authorization` header before line 73's fallback, so a missing header
      raises `KeyError`; `get_user_name_from_id_token` logs the user-name
      claim (line 60) before line 61 asks whether it is there, so a token
      without the claim raises `KeyError` and the `""` fallback is never
      reached. */
  function LambdaHandler(headers: Item, body: Item, verify: Value -> Claims, follow: Item -> Result<Item>): (r: Reply<Item>)
    ensures "Authorization" !in headers ==> r == Failure(KeyError("Authorization"))
    ensures "Authorization" in headers ==>
              r == Respond(body, ClaimedUserName(verify(headers["Authorization"])), follow)
  {
    if "Authorization" !in headers then Failure(KeyError("Authorization"))   // line 72
    else Respond(body, ClaimedUserName(verify(headers["Authorization"])), follow)
  }

  /** A request with a user reaches the repository with that user as the
      follower; a `follower_name` in the body changes nothing. */
  lemma FollowerComesFromToken(headers: Item, body: Item, verify: Value -> Claims, follow: Item -> Result<Item>, forged: Value)
    requires "Authorization" in headers
    requires ClaimedUserName(verify(headers["Authorization"])).Ok?
    requires Truthy(ClaimedUserName(verify(headers["Authorization"])).value)
    requires "following_name" in body
    ensures var name := ClaimedUserName(verify(headers["Authorization"])).value;
            LambdaHandler(headers, body, verify, follow)
              == match follow(Params(body, name)) case Ok(x) => Success(x) case Raise(e) => Failure(e)
    ensures LambdaHandler(headers, body["follower_name" := forged], verify, follow)
              == LambdaHandler(headers, body, verify, follow)
  {
    assert ParamKeys[0] == "following_name";
    var body' := body["follower_name" := forged];
    var name := ClaimedUserName(verify(headers["Authorization"])).value;
    assert Params(body', name) == Params(body, name);
  }

  /** The handler with the intended user-name lookup. */
  function LambdaHandlerFixed(headers: Item, body: Item, verify: Value -> Claims, follow: Item -> Result<Item>): (r: Reply<Item>)
    ensures "Authorization" !in headers ==> r == Failure(KeyError("Authorization"))
    ensures ("Authorization" in headers && verify(headers["Authorization"]).Verified?
             && UserNameClaim !in verify(headers["Authorization"]).claims) ==> r == Denied
  {
    if "Authorization" !in headers then Failure(KeyError("Authorization"))
    else Respond(body, UserNameOrEmpty(verify(headers["Authorization"])), follow)
  }

  /** A verified token without the user-name claim: as written the handler
      answers 500 (`KeyError`), where the fallback means 403. */
  lemma MissingClaimAnswers500(headers: Item, body: Item, verify: Value -> Claims, follow: Item -> Result<Item>)
    requires "Authorization" in headers
    requires verify(headers["Authorization"]).Verified?
    requires UserNameClaim !in verify(headers["Authorization"]).claims
    ensures LambdaHandler(headers, body, verify, follow) == Failure(KeyError(UserNameClaim))
    ensures StatusCode(LambdaHandler(headers, body, verify, follow)) == 500
    ensures LambdaHandlerFixed(headers, body, verify, follow) == Denied
  {
  }

  /** A concrete request: a verified token whose claims lack the user name. */
  lemma MissingClaimExample()
    ensures var headers := map["Authorization" := Str("token")];
            var verify := (t: Value) => Verified(map["email" := Str("alice@example.com")]);
            var follow := (p: Item) => Ok(p);
            var body := map["following_name" := Str("bob")];
            LambdaHandler(headers, body, verify, follow) == Failure(KeyError(UserNameClaim))
            && LambdaHandlerFixed(headers, body, verify, follow) == Denied
  {
    var headers := map["Authorization" := Str("token")];
    var verify := (t: Value) => Verified(map["email" := Str("alice@example.com")]);
    var follow := (p: Item) => Ok(p);
    var body := map["following_name" := Str("bob")];
    MissingClaimAnswers500(headers, body, verify, follow);
  }
}
