/** What the Lambda handlers share: the answers they give, what the token
    check hands back, and the required-parameter check each of them runs on
    the request body. */
module Http {
  import opened Values

  /** A handler's answer. The response envelope (CORS headers, JSON body) is
      not modelled; `Failure` is any exception the handler's `except` turns
      into a 500. */
  datatype Reply<T> = Success(item: T) | Denied | Invalid | Failure(cause: Error)

  /** The `statusCode` of the answer. */
  function StatusCode<T>(r: Reply<T>): int
  {
    match r
    case Success(_) => 200
    case Denied => 403
    case Invalid => 422
    case Failure(_) => 500
  }

  /** The first part of a handler either answers at once or hands a value on. */
  datatype Decision<T> = Stop(reply: Reply<Item>) | Pass(value: T)

  /** What `CognitoObject.get_user_info_from_id_token(token)` gives back: the
      verified claims; `None`, when fetching the signing keys fails with an
      HTTP error that it logs and swallows; or an exception, when the token
      does not verify. */
  datatype Claims = Verified(claims: Item) | NoClaims | Rejected

  /** The claim that carries the user name. */
  const UserNameClaim := "cognito:username"

  /** Every key of `keys` is in the body. */
  predicate HasAll(body: Item, keys: seq<string>)
  {
    forall i :: 0 <= i < |keys| ==> keys[i] in body
  }

  /** The loop of every `is_exist_parameter`: walk the required keys and stop
      at the first one the body lacks. */
  method CheckKeys(body: Item, keys: seq<string>) returns (ok: bool)
    ensures ok <==> HasAll(body, keys)
    ensures !ok ==> exists i :: 0 <= i < |keys| && keys[i] !in body
  {
    for i := 0 to |keys|
      invariant forall j :: 0 <= j < i ==> keys[j] in body
    {
      if keys[i] !in body {
        return false;
      }
    }
    return true;
  }

  /** `get_user_name_from_id_token` with the `""` fallback: the user-name
      claim when the claims carry one, and `""` otherwise. */
  function UserNameOrEmpty(claims: Claims): (r: Result<Value>)
    ensures claims.Rejected? ==> r == Raise(TokenRejected)
    ensures claims.NoClaims? ==> r == Raise(TypeError)
    ensures claims.Verified? ==> r.Ok?
    ensures claims.Verified? && UserNameClaim in claims.claims ==> r.value == claims.claims[UserNameClaim]
    ensures claims.Verified? && UserNameClaim !in claims.claims ==> r.value == Str("")
  {
    match claims
    case Rejected => Raise(TokenRejected)
    case NoClaims => Raise(TypeError)   // `"cognito:username" in None`
    case Verified(c) => if UserNameClaim in c then Ok(c[UserNameClaim]) else Ok(Str(""))
  }

  /** `get_user_name_from_id_token` that indexes the claims directly
      (`user_info['cognito:username']`): a missing claim raises `KeyError`. */
  function ClaimedUserName(claims: Claims): (r: Result<Value>)
    ensures claims.Rejected? ==> r == Raise(TokenRejected)
    ensures claims.NoClaims? ==> r == Raise(TypeError)
    ensures claims.Verified? && UserNameClaim !in claims.claims ==> r == Raise(KeyError(UserNameClaim))
    ensures claims.Verified? && UserNameClaim in claims.claims ==> r == Ok(claims.claims[UserNameClaim])
  {
    match claims
    case Rejected => Raise(TokenRejected)
    case NoClaims => Raise(TypeError)   // `None['cognito:username']`
    case Verified(c) => if UserNameClaim !in c then Raise(KeyError(UserNameClaim)) else Ok(c[UserNameClaim])
  }

  /** The two lookups differ only on a verified token without the claim,
      where the direct one raises and the other answers `""`. */
  lemma LookupsAgreeUnlessClaimMissing(claims: Claims)
    ensures (ClaimedUserName(claims) == UserNameOrEmpty(claims))
            <==> !(claims.Verified? && UserNameClaim !in claims.claims)
    ensures ClaimedUserName(claims).Ok? ==> UserNameOrEmpty(claims) == ClaimedUserName(claims)
  {
  }
}
