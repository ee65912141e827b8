/**
  The HTTP side of the GraphQL endpoint: the client description built from
  token claims, the context handed to query execution, and the assembly of
  the response from the execution result.
*/
module Routes {
  import opened Wrappers
  import opened Values
  import opened ConfigFile

  /** A TypeError raised while building the client description. */
  datatype TypeError = TypeError(message: string)

  /** `ClientInfo`: the user name (None for anonymous) and the group list. */
  datatype ClientInfo = ClientInfo(user: Option<string>, groups: seq<Json>)

  /**
    `ClientInfo(user, groups)`: `user` must be None or a str and is checked
    first; `groups` must be a list. On success both are stored as given.
  */
  function NewClientInfo(user: Json, groups: Json): (r: Result<ClientInfo, TypeError>)
    ensures r.Ok? <==> (user.JNull? || user.JString?) && groups.JArray?
    ensures !(user.JNull? || user.JString?) ==> r == Err(TypeError("user must be a string or None"))
    ensures (user.JNull? || user.JString?) && !groups.JArray? ==> r == Err(TypeError("groups must be a list"))
    ensures r.Ok? ==> r.value.user == (if user.JString? then Some(user.s) else None)
    ensures r.Ok? ==> r.value.groups == groups.items
  {
    if !user.JNull? && !user.JString? then Err(TypeError("user must be a string or None"))
    else if !groups.JArray? then Err(TypeError("groups must be a list"))
    else Ok(ClientInfo(if user.JString? then Some(user.s) else None, groups.items))
  }

  /** The payload of a JSON Web Token. */
  type Claims = map<string, Json>

  /** The context query execution sees: exactly the client and the app's configuration. */
  datatype Context = Context(client: ClientInfo, config: StrictConfig)

  /** `claims.get(key, default)`. */
  function Claim(claims: Claims, key: string, default: Json): Json {
    if key in claims then claims[key] else default
  }

  /**
    `_build_context(request)`. `decoded` is what decoding the "webjive_jwt"
    cookie with the configured secret gave: the claims, or None for the
    InvalidTokenError a missing, malformed or wrongly signed token raises.
  */
  function BuildContext(config: StrictConfig, decoded: Option<Claims>): (r: Result<Context, TypeError>)
    ensures r.Ok? ==> r.value.config == config
    ensures decoded.None? ==> r == Ok(Context(ClientInfo(None, []), config))
    ensures decoded.Some? ==>
      var user, groups := Claim(decoded.value, "username", JNull), Claim(decoded.value, "groups", JArray([]));
      && (r.Ok? <==> (user.JNull? || user.JString?) && groups.JArray?)
      && (r.Ok? ==> r.value.client.user == (if user.JString? then Some(user.s) else None))
      && (r.Ok? ==> r.value.client.groups == groups.items)
  {
    var claims := decoded.GetOr(map[]);
    var user := Claim(claims, "username", JNull);
    var groups := Claim(claims, "groups", JArray([]));
    match NewClientInfo(user, groups)
    case Err(e) => Err(e)
    case Ok(client) => Ok(Context(client, config))
  }

  /** Claims without "username" and "groups" give an anonymous client with no groups. */
  lemma AnonymousWithoutClaims(config: StrictConfig, claims: Claims)
    requires "username" !in claims && "groups" !in claims
    ensures BuildContext(config, Some(claims)) == Ok(Context(ClientInfo(None, []), config))
  {
  }

  /** The exception a GraphQL error wraps, if any. */
  datatype OriginalError = AuthError | OtherError(kind: string)

  datatype GraphQLError = GraphQLError(message: string, original: Option<OriginalError>)

  predicate IsAuthError(e: GraphQLError) {
    e.original == Some(AuthError)
  }

  /** The response of the /db handler: 401, or a JSON object. */
  datatype Response = Unauthorized | JsonResponse(body: map<string, Json>)

  /** The search loop of the handler: does any error wrap an AuthError? */
  function HasAuthError(errors: seq<GraphQLError>): (r: bool)
    ensures r <==> exists i :: 0 <= i < |errors| && IsAuthError(errors[i])
    decreases |errors|
  {
    if errors == [] then false
    else if IsAuthError(errors[0]) then true
    else
      var r := HasAuthError(errors[1..]);
      assert r <==> exists i :: 1 <= i < |errors| && IsAuthError(errors[i]) by {
        if r {
          var i :| 0 <= i < |errors[1..]| && IsAuthError(errors[1..][i]);
          assert IsAuthError(errors[i + 1]);
        }
      }
      r
  }

  /**
    The response assembly of the /db handler, with `ErrorParser.parse` and
    `ErrorParser.remove_duplicated_errors` as the parameters `parse` and
    `dedupe`. `data` is the execution result's data.
  */
  function AssembleResponse(errors: seq<GraphQLError>, data: Json,
                            parse: GraphQLError -> Json, dedupe: seq<Json> -> Json): (r: Response)
    ensures r.Unauthorized? <==> exists i :: 0 <= i < |errors| && IsAuthError(errors[i])
    ensures r.JsonResponse? ==> r.body.Keys <= {"errors", "data"}
    ensures r.JsonResponse? ==> ("errors" in r.body <==> errors != [])
    ensures r.JsonResponse? ==> ("data" in r.body <==> Truthy(data))
    ensures r.JsonResponse? && "errors" in r.body ==>
      r.body["errors"] == dedupe(seq(|errors|, i requires 0 <= i < |errors| => parse(errors[i])))
    ensures r.JsonResponse? && "data" in r.body ==> r.body["data"] == data
  {
    if errors != [] && HasAuthError(errors) then Unauthorized
    else
      var parsed := seq(|errors|, i requires 0 <= i < |errors| => parse(errors[i]));
      var withErrors: map<string, Json> := if parsed != [] then map["errors" := dedupe(parsed)] else map[];
      JsonResponse(if Truthy(data) then withErrors["data" := data] else withErrors)
  }
}
