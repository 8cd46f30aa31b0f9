/**
 * What the handlers receive from the Firebase Admin SDK, taken as inputs.
 * The SDK itself (initialisation, the database read, the multicast send and
 * the topic unsubscription) is not modelled: each call either returns or throws.
 */
module Firebase {

  type UserID = string
  type Token = string

  /** One property of a user's `fcmTokens` object. */
  datatype TokenEntry = TokenEntry(key: string, token: Token)

  /**
   * The `fcmTokens` object of a user, as its entries in the object's own
   * enumeration order (the order `Object.values` reports them in). A
   * JavaScript object cannot hold a key twice; the model never reads the
   * keys, so it does not need to exclude repeated ones.
   */
  type TokenTable = seq<TokenEntry>

  /** A user's record; `fcmTokens` is `None` when the property is missing or falsy. */
  datatype UserRecord = UserRecord(fcmTokens: Option<TokenTable>)

  /**
   * The value of the users node (`snapshot.val()`), keyed by user ID.
   * A user ID whose value is missing or falsy is not a key.
   */
  type Users = map<UserID, UserRecord>

  datatype Option<T> = None | Some(value: T)

  /** The outcome of one awaited SDK call: a value, or a thrown error with its message. */
  datatype Call<T> = Returns(value: T) | Throws(message: string)

  /**
   * The outcome each SDK call would have in one request. `lookup` returns
   * `None` when the node holds no data (`val()` is null).
   */
  datatype Env = Env(
    init: Call<()>,
    lookup: Call<Option<Users>>,
    multicast: Call<()>,
    unsubscribe: Call<()>)

  /** `Object.values(table)`: the tokens of a table in enumeration order. */
  function Values(table: TokenTable): (values: seq<Token>) {
    seq(|table|, k requires 0 <= k < |table| => table[k].token)
  }
}
