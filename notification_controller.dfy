/**
 * The `POST /users` and `DELETE /users` routes: validation middleware, then a
 * handler that initialises Firebase, reads the users node, collects the
 * requested users' tokens and either sends a multicast notification or
 * unsubscribes the tokens.
 *
 * A handler's run is described by the SDK calls it makes, in order, and the
 * responses it writes, in order. Nothing stops the handler after its
 * "No users found" reply, so on a null lookup it writes two responses.
 */
module NotificationController {
  import opened Http
  import opened Firebase
  import opened NotificationRequest
  import opened TokenResolution

  /** One awaited call into the Firebase Admin SDK. */
  datatype ServiceCall =
    | Initialize                                                  // initializeFirebase(); the live version takes no arguments
    | ReadUsers(databaseRef: FieldValue)                          // getUsersTokens(databaseRef)
    | SendMulticast(tokens: seq<Token>, title: FieldValue, body: FieldValue)
    | RemoveTokens(tokens: seq<Token>)                            // removeToken(tokensToRemove)

  function NoUsersFound(): (response: HttpResponse) {
    ServerError("No users found")
  }

  function Sent(tokens: seq<Token>): (response: HttpResponse) {
    HttpResponse(200, Succeeded("Notifications sent successfully", tokens))
  }

  function Removed(tokens: seq<Token>): (response: HttpResponse) {
    HttpResponse(200, Succeeded("Tokens removed successfully", tokens))
  }

  /** The handler of `POST /users`. */
  method PostUsers(req: RequestBody, env: Env) returns (calls: seq<ServiceCall>, responses: seq<HttpResponse>)
    requires SenderErrors(req) == []
    // initialisation throws: one 500 with its message, nothing else is called
    ensures env.init.Throws? ==> calls == [Initialize] && responses == [ServerError(env.init.message)]
    // the read throws: one 500 with its message, no send
    ensures env.init.Returns? && env.lookup.Throws? ==>
      calls == [Initialize, ReadUsers(req.databaseRef)] && responses == [ServerError(env.lookup.message)]
    // the multicast is sent exactly when tokens were collected, with title and body unchanged
    ensures env.init.Returns? && env.lookup.Returns? ==>
      var tokens := Resolve(env.lookup.value, req.usersIDs.items);
      calls == [Initialize, ReadUsers(req.databaseRef)]
               + (if tokens == [] then [] else [SendMulticast(tokens, req.title, req.body)])
    // a null lookup: "No users found", then the 200 with no tokens as well
    ensures env.init.Returns? && env.lookup.Returns? && env.lookup.value.None? ==>
      responses == [NoUsersFound(), Sent([])]
    // users found: one reply, 200 echoing the collected tokens unless the send throws
    ensures env.init.Returns? && env.lookup.Returns? && env.lookup.value.Some? ==>
      var tokens := Flatten(env.lookup.value.value, req.usersIDs.items);
      responses == [if tokens != [] && env.multicast.Throws? then ServerError(env.multicast.message) else Sent(tokens)]
  {
    SenderValid(req);
    var usersIDs := req.usersIDs.items;
    var tokens: seq<Token> := [];
    calls, responses := [], [];

    calls := calls + [Initialize];
    if env.init.Throws? {
      responses := responses + [ServerError(env.init.message)];
      return;
    }
    calls := calls + [ReadUsers(req.databaseRef)];
    if env.lookup.Throws? {
      responses := responses + [ServerError(env.lookup.message)];
      return;
    }
    var response := env.lookup.value;

    if response.Some? {
      tokens := CollectTokens(response.value, usersIDs);
    } else {
      responses := responses + [NoUsersFound()];
    }
    if |tokens| > 0 {
      calls := calls + [SendMulticast(tokens, req.title, req.body)];
      if env.multicast.Throws? {
        responses := responses + [ServerError(env.multicast.message)];
        return;
      }
    }
    responses := responses + [Sent(tokens)];
  }

  /** The handler of `DELETE /users`. */
  method DeleteUsers(req: RequestBody, env: Env) returns (calls: seq<ServiceCall>, responses: seq<HttpResponse>)
    requires RemoverErrors(req) == []
    ensures env.init.Throws? ==> calls == [Initialize] && responses == [ServerError(env.init.message)]
    ensures env.init.Returns? && env.lookup.Throws? ==>
      calls == [Initialize, ReadUsers(req.databaseRef)] && responses == [ServerError(env.lookup.message)]
    // removal is always called, even with no tokens
    ensures env.init.Returns? && env.lookup.Returns? ==>
      calls == [Initialize, ReadUsers(req.databaseRef), RemoveTokens(Resolve(env.lookup.value, req.usersIDs.items))]
    // a null lookup: "No users found", then the removal's outcome as well
    ensures env.init.Returns? && env.lookup.Returns? && env.lookup.value.None? ==>
      responses == [NoUsersFound(), if env.unsubscribe.Throws? then ServerError(env.unsubscribe.message) else Removed([])]
    ensures env.init.Returns? && env.lookup.Returns? && env.lookup.value.Some? ==>
      var tokens := Flatten(env.lookup.value.value, req.usersIDs.items);
      responses == [if env.unsubscribe.Throws? then ServerError(env.unsubscribe.message) else Removed(tokens)]
  {
    RemoverValid(req);
    var usersIDs := req.usersIDs.items;
    var tokensToRemove: seq<Token> := [];
    calls, responses := [], [];

    calls := calls + [Initialize];
    if env.init.Throws? {
      responses := responses + [ServerError(env.init.message)];
      return;
    }
    calls := calls + [ReadUsers(req.databaseRef)];
    if env.lookup.Throws? {
      responses := responses + [ServerError(env.lookup.message)];
      return;
    }
    var response := env.lookup.value;

    if response.Some? {
      tokensToRemove := CollectTokens(response.value, usersIDs);
    } else {
      responses := responses + [NoUsersFound()];
    }
    calls := calls + [RemoveTokens(tokensToRemove)];
    if env.unsubscribe.Throws? {
      responses := responses + [ServerError(env.unsubscribe.message)];
      return;
    }
    responses := responses + [Removed(tokensToRemove)];
  }

  /** `router.post("/users", validateUsersForSender(), validateResult, handler)` */
  method PostRoute(req: RequestBody, env: Env) returns (calls: seq<ServiceCall>, responses: seq<HttpResponse>)
    // a request with a failed rule gets one 400 carrying all its errors, and no SDK call is made
    ensures SenderErrors(req) != [] ==> calls == [] && responses == [BadRequest(SenderErrors(req))]
    // a valid request always reaches the handler, which starts by initialising Firebase
    ensures SenderErrors(req) == [] ==> |calls| > 0 && calls[0] == Initialize && |responses| > 0
  {
    match ValidateResult(SenderErrors(req))
    case Reply(response) =>
      calls, responses := [], [response];
    case Next =>
      calls, responses := PostUsers(req, env);
  }

  /** `router.delete("/users", validateUsersForRemover(), validateResult, handler)` */
  method DeleteRoute(req: RequestBody, env: Env) returns (calls: seq<ServiceCall>, responses: seq<HttpResponse>)
    ensures RemoverErrors(req) != [] ==> calls == [] && responses == [BadRequest(RemoverErrors(req))]
    ensures RemoverErrors(req) == [] ==> |calls| > 0 && calls[0] == Initialize && |responses| > 0
  {
    match ValidateResult(RemoverErrors(req))
    case Reply(response) =>
      calls, responses := [], [response];
    case Next =>
      calls, responses := DeleteUsers(req, env);
  }
}
