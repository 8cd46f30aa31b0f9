# firebase-notifications-pusher: token fan-out and request validation

This project models the two pieces of the notification relay that make decisions of their own:

- the `POST /users` and `DELETE /users` routes. Each route validates the body, initialises Firebase, reads the users node, turns the requested user IDs into one flat list of FCM tokens, and then sends a multicast notification (POST) or unsubscribes the tokens (DELETE);
- the express-validator rule lists and the `validateResult` middleware that answer 400 to an incomplete request.

The Firebase Admin SDK is not modelled. Each of its calls (initialisation, the database read, the multicast send, the unsubscription) is an input `Env` that says whether that call returns or throws, and what the read returns. A handler run is described by the SDK calls it makes, in order, and the responses it writes, in order.

Files:

- `http.dfy`: the response shapes (`{success, message, response}`, `{success, message, error}`, `{success, errors}`).
- `firebase.dfy`: the users-node value and the SDK call outcomes. A user's `fcmTokens` object is a sequence of `(key, token)` entries in the object's enumeration order.
- `token_resolution.dfy`: `Flatten`, the specification of the fan-out. `CollectTokens` is the nested push loop proved equal to it. The lemmas cover order, skipped IDs, membership, length and permutation.
- `notification_request.dfy`: the sender and remover rule lists, the error list, and `ValidateResult`.
- `notification_controller.dfy`: the two handlers and the two routes.

On a null lookup neither handler returns after writing the 500 "No users found" reply (`src/controllers/notificationController.js:55-61` and `:129-135`). `PostUsers` goes on to the 200 reply with no tokens (lines 72-76). `DeleteUsers` first calls `removeToken` with no tokens (line 137). It then writes the 200 reply, or a 500 with the error's message if that call throws (lines 139-150). The contracts of both handlers state this second write as the code has it.

The initialisation and the success reply are modelled as the code has them:

- `initializeFirebase` (`src/utils/firebaseUtils.js:4-11`) ignores its arguments, loads a fixed local key and has no once-only guard. So every handled request makes an `Initialize` call, and the model claims nothing about once-only initialisation.
- The 200 body echoes the collected token list, not the provider's reply (`src/controllers/notificationController.js:72-76`).

## Model

| member | source | states |
|---|---|---|
| TokenResolution.CollectTokens | src/controllers/notificationController.js:44-54 | the pushed list equals `Flatten`: each listed ID's `fcmTokens` values in enumeration order, IDs in input order; IDs without a record or `fcmTokens` add nothing |
| TokenResolution.FlattenAppend | src/controllers/notificationController.js:46-53 | appending a user ID appends exactly that user's tokens, even when the ID is already listed (no deduplication) |
| TokenResolution.FlattenConcat | src/controllers/notificationController.js:46-54 | the tokens of earlier IDs come before those of later IDs: flattening a concatenation is the concatenation of the flattenings |
| TokenResolution.FlattenSkipsUnknown | src/controllers/notificationController.js:47-48 | an ID with no record, or whose record has no `fcmTokens`, can be removed from anywhere in the list without changing the result |
| TokenResolution.FlattenAllUnknown | src/controllers/notificationController.js:46-54 | when no requested ID has a record with `fcmTokens`, the list is empty |
| TokenResolution.FlattenContains | src/controllers/notificationController.js:46-53 | a token is collected if and only if some requested user's `fcmTokens` holds it |
| TokenResolution.FlattenLength | src/controllers/notificationController.js:46-53 | the number of collected tokens is the sum of each listed ID's token count, repeats counted once per occurrence |
| TokenResolution.FlattenPermutation | src/controllers/notificationController.js:46-53 | the multiset of collected tokens depends only on the multiset of requested IDs |
| TokenResolution.ResolveExample | src/controllers/notificationController.js:46-53 | with `u1 -> {a: "T1"}` and `u2` absent, requesting `["u1", "u2"]` yields `["T1"]` |
| NotificationController.PostUsers | src/controllers/notificationController.js:37-83 | initialisation or read throwing gives one 500 with the error's message and no later call; the multicast is sent if and only if tokens were collected, with title and body unchanged; the 200 echoes the collected tokens, not the provider result; a send that throws gives a 500 instead; a null lookup gives "No users found" followed by a 200 with no tokens |
| NotificationController.DeleteUsers | src/controllers/notificationController.js:113-151 | same fan-out; the removal is always called, with an empty list too; the 200 echoes the tokens to remove; a throw at any step gives a 500 with its message; a null lookup gives "No users found" followed by the removal's reply |
| NotificationController.PostRoute | src/controllers/notificationController.js:28-32 | a request failing a sender rule gets one 400 with all its errors and no SDK call; a valid request reaches the handler, which first initialises Firebase |
| NotificationController.DeleteRoute | src/controllers/notificationController.js:105-109 | the same for the remover rules |
| NotificationRequest.ValidateResult | requests/NotificationRequest.js:28-34 | with errors, a 400 reply with `success: false` and the non-empty error list; without errors, `next` and no reply |
| NotificationRequest.ErrorsReportFailedRules | requests/NotificationRequest.js:29-31 | an error is in the list if and only if it is the error of a rule the request fails |
| NotificationRequest.ErrorsEmptyIffAllPass | requests/NotificationRequest.js:29-33 | the error list is empty if and only if every rule passes |
| NotificationRequest.ErrorPerRule | requests/NotificationRequest.js:6-13 | when no two rules check the same field, a rule's own path and message are reported if and only if that rule fails |
| NotificationRequest.SenderValid | requests/NotificationRequest.js:4-15 | the sender route passes if and only if `usersIDs` is an array with at least one element and `title`, `body`, `firebaseKeyUrl`, `databaseURL`, `databaseRef` are non-empty |
| NotificationRequest.RemoverValid | requests/NotificationRequest.js:17-26 | the remover route passes if and only if `usersIDs` is a non-empty array and `firebaseKeyUrl`, `databaseURL`, `databaseRef` are non-empty |
| NotificationRequest.SenderMessages | requests/NotificationRequest.js:6-13 | each of the six sender fields is reported with its fixed message ("usersIDs is required", "Title is required", ...) if and only if it fails its check |
| NotificationRequest.RemoverMessages | requests/NotificationRequest.js:19-24 | each of the four remover fields is reported with its fixed message if and only if it fails; `title` and `body` are never reported |
| NotificationRequest.RemoverIgnoresTitleAndBody | requests/NotificationRequest.js:17-26 | changing `title` or `body` does not change the remover's errors |
| NotificationRequest.SenderValidIsRemoverValid | requests/NotificationRequest.js:4-26 | a body the sender route accepts is accepted by the remover route |

## Left out

- The Firebase Admin SDK calls in `src/services/notificationService.js` (`sendEachForMulticast`, the `once("value")` read, `unsubscribeFromTopic(tokens, "sports")`) are inputs that return or throw. The provider's reply, its per-token outcomes and the error logging are not modelled.
- `src/utils/firebaseUtils.js` is not part of this model beyond its call. Loading the local key file and `admin.initializeApp` are an opaque call that may throw. The commented-out URL variant is not live code.
- `server.js` is not part of this model: the process-start `initializeApp`, the `/send-notification` pass-through, CORS and body parsing, and the 404 fallback.
- express-validator's coercion of values before `notEmpty` and `isArray` is not modelled. A field is `Missing`, a string, or an array of strings. A string is non-empty when it has a character, and an array when it has an element. Error entries keep only `path` and `msg`.
- Writes to the response are modelled as never failing, so `responses` is the list of writes the handler would make if every write succeeded. Under Express, a second write throws "headers already sent" inside the `try`. The `catch` then attempts a 500 write of its own, which throws out of the handler. A real client therefore sees only `responses[0]`.
- JavaScript property lookup is simplified. A user ID is a string. A falsy user value is treated as a missing key. A truthy `fcmTokens` is an object whose values are strings. Prototype properties are not keys.
- Object enumeration order (integer-like keys first) is taken as given: the entries of `fcmTokens` are already in that order.
- Promise scheduling, logging and the fixed web-push link are not modelled.
- NotificationController.PostRoute: for a valid request the contract states only that the handler runs (its first call is `Initialize`, and it writes a reply). The handler's own contract states the rest.
- NotificationController.DeleteRoute: the same as `PostRoute`, for the remover route.
