/**
 * Records exchanged with the Monzo API and kept by the exporter.
 *
 * Go's `time.Time` values are kept as whole unix seconds, the API's
 * `int64` amounts as unbounded integers, and the token endpoint's
 * `expires_in` (a JSON number decoded into `float64`) as a `real`.
 */
module MonzoTypes {

  datatype Option<+T> = None | Some(value: T)

  /** The outcome of a call that returns a Go `error`; `Err` carries its message. */
  datatype Result<+T> = Ok(value: T) | Err(error: string)

  /** One entry of the token box: a credential pair, its owner and its expiry. */
  datatype TokenRecord = TokenRecord(
    accessToken: string,
    refreshToken: string,
    userID: string,
    expiryTime: int)

  datatype Account = Account(id: string, description: string)

  datatype Pot = Pot(id: string, name: string, currency: string, balance: int)

  datatype Balance = Balance(balance: int, totalBalance: int, currency: string, spendToday: int)

  datatype CallerIdentity = CallerIdentity(authenticated: bool, clientID: string, userID: string)

  /** The decoded body of a reply from the OAuth token endpoint. */
  datatype AuthResponse = AuthResponse(
    accessToken: string,
    refreshToken: string,
    userID: string,
    expirySeconds: real)
}
